/** The Virtual ASIO capture bus: the graph writes blocks of one size, every attached consumer queues
    them and reads blocks of its own size. The operations run one after the other here;
    BusProtocol and CaptureStreamProtocol interleave their steps. */
module CaptureBus {
  import opened Basics
  import opened AudioFifo

  /** A slot as a value: its handle, what it buffers, the frames written to it since it was attached,
      and those its consumer has been given. */
  datatype SlotView = SlotView(
    status: Status,
    generation: nat,
    pending: seq<Frame>,
    queued: seq<seq<Frame>>,
    accepted: seq<Frame>,
    delivered: seq<Frame>)

  ghost predicate Uniform(blocks: seq<seq<Frame>>, frames: nat) {
    forall k :: 0 <= k < |blocks| ==> |blocks[k]| == frames
  }

  function Silence(channels: nat): Frame {
    seq(channels, _ => 0.0)
  }

  ghost predicate Silent(destination: array<Frame>, channels: nat)
    reads destination
  {
    forall k :: 0 <= k < destination.Length ==> destination[k] == Silence(channels)
  }

  method ClearFrames(destination: array<Frame>, channels: nat)
    modifies destination
    ensures Silent(destination, channels)
  {
    for k := 0 to destination.Length
      invariant forall j :: 0 <= j < k ==> destination[j] == Silence(channels)
    {
      destination[k] := Silence(channels);
    }
  }

  /** Moving the oldest queued block to the end of the pending frames keeps their concatenation. */
  lemma MovedStream(delivered: seq<Frame>, pending: seq<Frame>, queued: seq<seq<Frame>>)
    requires queued != []
    ensures delivered + (pending + queued[0]) + Flatten(queued[1..]) == delivered + pending + Flatten(queued)
  {
  }

  /** Queueing a block extends the stream by its frames. */
  lemma QueuedStream(before: seq<Frame>, queued: seq<seq<Frame>>, block: seq<Frame>)
    ensures before + Flatten(queued + [block]) == before + Flatten(queued) + block
  {
    FlattenAppend(queued, block);
  }

  /** Handing out the oldest `n` frames keeps the stream. */
  lemma HandedOut(delivered: seq<Frame>, pending: seq<Frame>, rest: seq<Frame>, n: nat)
    requires n <= |pending|
    ensures (delivered + pending[..n]) + pending[n..] + rest == delivered + pending + rest
  {
  }

  lemma RoomForBlock(frames: nat, capacity: nat)
    requires capacity > 0
    ensures frames <= frames * capacity
  {
  }

  lemma OneBlockLess(depth: nat, frames: nat)
    ensures depth * frames == (depth - 1) * frames + frames
  {
  }

  class CaptureSlot {
    const channels: nat
    const frames: nat
    const pending: PlanarFifo
    const queue: BlockQueue
    var status: Status
    var generation: nat
    /** Since the slot was attached: every frame write() queued, and every frame read() delivered. */
    ghost var accepted: seq<Frame>
    ghost var delivered: seq<Frame>

    ghost function Footprint(): set<object> {
      {this, pending, pending.cells, queue, queue.cells}
    }

    ghost predicate Laid()
      reads this, pending, queue
    {
      && frames > 0 && pending.channels == channels
      && pending.Valid() && queue.Valid()
      && pending.cells.Length == MAX_FRAMES_PER_BLOCK + frames * queue.Capacity()
    }

    /** The stream law: frames delivered, then pending frames, then queued blocks, are exactly the
        frames written. */
    ghost predicate Valid()
      reads Footprint()
    {
      && Laid()
      && Uniform(queue.Contents(), frames)
      && delivered + pending.Contents() + Flatten(queue.Contents()) == accepted
    }

    ghost function View(): SlotView
      requires Valid()
      reads Footprint()
    {
      SlotView(status, generation, pending.Contents(), queue.Contents(), accepted, delivered)
    }

    /** available_frames(): pending frames and queued blocks. */
    function AvailableFrames(): nat
      requires Laid()
      reads this, pending, queue
    {
      pending.available + queue.Depth() * frames
    }

    constructor (channels: nat, frames: nat, capacityBlocks: nat)
      requires frames > 0 && capacityBlocks > 0
      ensures Valid() && fresh(Footprint()) && status == Idle && accepted == [] && delivered == []
      ensures this.channels == channels && this.frames == frames && queue.Capacity() == capacityBlocks
    {
      this.channels, this.frames := channels, frames;
      pending := new PlanarFifo(channels, MAX_FRAMES_PER_BLOCK + frames * capacityBlocks);
      queue := new BlockQueue(capacityBlocks);
      status, generation := Idle, 0;
      accepted, delivered := [], [];
    }

    /** The part of attach() and detach() that touches the slot. */
    method Reset(status: Status, generation: nat)
      requires Valid()
      modifies Footprint()
      ensures Valid() && View() == SlotView(status, generation, [], [], [], [])
    {
      queue.Clear();
      pending.Clear();
      accepted, delivered := [], [];
      this.status, this.generation := status, generation;
    }

    /** write() on one active slot: the block is queued, or dropped when the queue is full. */
    method WriteBlock(block: seq<Frame>) returns (ok: bool)
      requires Valid() && |block| == frames
      modifies Footprint()
      ensures Valid() && ok == (|old(View()).queued| < queue.Capacity())
      ensures View() == Written(old(View()), block, queue.Capacity())
    {
      ghost var q := queue.Contents();
      ok := queue.Enqueue(block);
      if ok {
        accepted := accepted + block;
        QueuedStream(delivered + pending.Contents(), q, block);
      }
    }

    /** One round of the loop in read(): the oldest queued block goes to the pending FIFO. The overflow
        branch is never taken. */
    method MoveBlock() returns (overflowed: bool)
      requires Valid() && pending.available < MAX_FRAMES_PER_BLOCK && queue.Depth() > 0
      modifies pending, pending.cells, queue
      ensures Valid() && !overflowed
      ensures AvailableFrames() == old(AvailableFrames())
      ensures queue.Depth() == old(queue.Depth()) - 1
    {
      ghost var p, q := pending.Contents(), queue.Contents();
      RoomForBlock(frames, queue.Capacity());
      OneBlockLess(|q|, frames);
      var block := queue.Head();
      if pending.FreeFrames() < |block| {
        return true;
      }
      var pushed := pending.Push(block, channels, |block|);
      assert block[..pushed] == block;
      if pushed != |block| {
        return true;
      }
      assert queue.Contents() == q;
      queue.Advance();
      MovedStream(delivered, p, q);
      return false;
    }

    /** Moves blocks until `n` frames are pending or the queue is empty. */
    method Gather(n: nat) returns (overflowed: bool)
      requires Valid() && n <= MAX_FRAMES_PER_BLOCK
      modifies pending, pending.cells, queue
      ensures Valid() && !overflowed
      ensures AvailableFrames() == old(AvailableFrames())
      ensures pending.available >= n <==> AvailableFrames() >= n
    {
      while pending.available < n
        invariant Valid() && AvailableFrames() == old(AvailableFrames())
        decreases queue.Depth()
      {
        queue.FullMeansMeeting();
        if queue.readIndex == queue.writeIndex {
          break;
        }
        overflowed := MoveBlock();
        if overflowed {
          return;
        }
      }
      return false;
    }

    /** read() on a slot, after its handle checks. */
    method ReadFrames(destination: array<Frame>) returns (ok: bool, overflowed: bool)
      requires Valid() && destination.Length <= MAX_FRAMES_PER_BLOCK && destination !in Footprint()
      modifies Footprint(), destination
      ensures Valid() && !overflowed
      ensures ok <==> old(AvailableFrames()) >= destination.Length
      ensures AvailableFrames() == old(AvailableFrames()) - if ok then destination.Length else 0
      ensures accepted == old(accepted) && status == old(status) && generation == old(generation)
      ensures delivered == old(delivered) + if ok then destination[..] else []
      ensures !ok ==> unchanged(destination)
    {
      overflowed := Gather(destination.Length);
      if pending.available < destination.Length {
        return false, overflowed;
      }
      ghost var p := pending.Contents();
      var popped := pending.Pop(destination, channels, destination.Length);
      assert destination[..] == p[..destination.Length];
      HandedOut(delivered, p, Flatten(queue.Contents()), destination.Length);
      delivered := delivered + destination[..];
      return popped == destination.Length, overflowed;
    }
  }

  /** A slot after write() offered it a block. */
  function Written(v: SlotView, block: seq<Frame>, capacity: int): SlotView {
    if |v.queued| < capacity then v.(queued := v.queued + [block], accepted := v.accepted + block) else v
  }

  predicate Accepting(v: SlotView, capacity: int) {
    v.status == Active && |v.queued| < capacity
  }

  predicate AnyAccepting(views: seq<SlotView>, capacity: int) {
    exists k :: 0 <= k < |views| && Accepting(views[k], capacity)
  }

  lemma AnyAcceptingNext(views: seq<SlotView>, n: nat, capacity: int)
    requires n < |views|
    ensures AnyAccepting(views[..n + 1], capacity) <==> AnyAccepting(views[..n], capacity) || Accepting(views[n], capacity)
  {
    if AnyAccepting(views[..n], capacity) {
      var k :| 0 <= k < n && Accepting(views[..n][k], capacity);
      assert Accepting(views[..n + 1][k], capacity);
    }
    if Accepting(views[n], capacity) {
      assert Accepting(views[..n + 1][n], capacity);
    }
    if AnyAccepting(views[..n + 1], capacity) {
      var k :| 0 <= k < n + 1 && Accepting(views[..n + 1][k], capacity);
      assert k < n ==> Accepting(views[..n][k], capacity);
    }
  }

  function AfterWrite(v: SlotView, block: seq<Frame>, capacity: int): SlotView {
    if v.status == Active then Written(v, block, capacity) else v
  }

  /** The slots after write() has visited the first `n`. */
  function AfterWrites(views: seq<SlotView>, block: seq<Frame>, capacity: int, n: nat): (r: seq<SlotView>)
    ensures |r| == |views|
    ensures forall k :: 0 <= k < |views| ==> r[k] == if k < n then AfterWrite(views[k], block, capacity) else views[k]
  {
    seq(|views|, k requires 0 <= k < |views| => if k < n then AfterWrite(views[k], block, capacity) else views[k])
  }

  lemma NextWrite(views: seq<SlotView>, block: seq<Frame>, capacity: int, n: nat)
    requires n < |views|
    ensures AfterWrites(views, block, capacity, n)[n := AfterWrite(views[n], block, capacity)]
         == AfterWrites(views, block, capacity, n + 1)
  {
  }

  /** A slot after detach() under its own generation. */
  function Detached(v: SlotView): SlotView {
    if v.status == Active then SlotView(Idle, v.generation, [], [], [], []) else v.(status := Claiming)
  }

  /** read() hands `delivered` to the consumer and changes nothing else of the slot's stream. */
  ghost predicate AfterRead(was: SlotView, now: SlotView, delivered: seq<Frame>) {
    && now.delivered == was.delivered + delivered
    && now.accepted == was.accepted && now.status == was.status && now.generation == was.generation
  }

  /** Of all slots, read() touches only its own. */
  ghost predicate ReadOf(was: seq<SlotView>, now: seq<SlotView>, slot: nat, delivered: seq<Frame>) {
    if slot < |was| then |now| == |was| && now == was[slot := now[slot]] && AfterRead(was[slot], now[slot], delivered)
    else now == was
  }

  ghost predicate Made(slot: CaptureSlot, channels: nat, frames: nat, capacity: nat)
    reads slot.Footprint()
  {
    && slot.Valid() && slot.status == Idle && slot.channels == channels && slot.frames == frames
    && slot.queue.Capacity() == capacity
  }

  class Bus {
    const channels: nat
    const frames: nat
    const capacity: nat
    const slots: seq<CaptureSlot>
    ghost const owned: set<object>
    var nextGeneration: nat
    var droppedBlocks: nat
    var consumerUnderflows: nat

    ghost predicate SlotsValid()
      reads owned
    {
      && frames > 0 && channels > 0 && this !in owned
      && (forall k :: 0 <= k < |slots| ==>
            && slots[k].Footprint() <= owned && slots[k].Valid() && slots[k].channels == channels
            && slots[k].frames == frames && slots[k].queue.Capacity() == capacity)
      && (forall j, k :: 0 <= j < |slots| && 0 <= k < |slots| && j != k ==> slots[j].Footprint() !! slots[k].Footprint())
    }

    ghost predicate Valid()
      reads this, owned
    {
      SlotsValid() && nextGeneration > 0
    }

    ghost function Views(): (v: seq<SlotView>)
      requires SlotsValid()
      reads owned
      ensures |v| == |slots|
      ensures forall k :: 0 <= k < |v| ==> v[k] == slots[k].View()
    {
      seq(|slots|, k requires 0 <= k < |slots| && SlotsValid() reads owned => slots[k].View())
    }

    constructor (channels: nat, frames: nat, maximumConsumers: nat, capacityBlocks: nat)
      requires channels > 0 && frames > 0 && maximumConsumers > 0 && capacityBlocks > 0
      ensures Valid() && fresh(owned) && |slots| == maximumConsumers && capacity == capacityBlocks
      ensures forall k :: 0 <= k < |slots| ==> slots[k].status == Idle
    {
      var made: seq<CaptureSlot> := [];
      ghost var footprint: set<object> := {};
      for i := 0 to maximumConsumers
        invariant |made| == i && fresh(footprint)
        invariant forall k :: 0 <= k < i ==> made[k].Footprint() <= footprint && Made(made[k], channels, frames, capacityBlocks)
        invariant forall j, k :: 0 <= j < i && 0 <= k < i && j != k ==> made[j].Footprint() !! made[k].Footprint()
      {
        var slot := new CaptureSlot(channels, frames, capacityBlocks);
        made := made + [slot];
        footprint := footprint + slot.Footprint();
      }
      this.channels, this.frames, capacity, slots, owned := channels, frames, capacityBlocks, made, footprint;
      nextGeneration, droppedBlocks, consumerUnderflows := 1, 0, 0;
    }

    /** Changing one slot leaves every other slot as it was. */
    twostate lemma OneSlotChanged(i: nat)
      requires old(SlotsValid()) && i < |slots| && slots[i].Valid()
      requires forall o :: o in owned && o !in slots[i].Footprint() ==> unchanged(o)
      ensures SlotsValid() && Views() == old(Views())[i := slots[i].View()]
    {
      forall k | 0 <= k < |slots| && k != i
        ensures slots[k].Valid() && slots[k].View() == old(slots[k].View())
      {
        assert slots[k].Footprint() !! slots[i].Footprint();
      }
    }

    twostate lemma NothingChanged()
      requires old(SlotsValid())
      requires forall o :: o in owned ==> unchanged(o)
      ensures SlotsValid() && Views() == old(Views())
    {
    }

    /** attach(): claims the first idle slot, empties it, and gives it a fresh generation. */
    method Attach() returns (slot: Option<nat>, generation: nat)
      requires Valid()
      modifies this, owned
      ensures Valid()
      ensures match slot
              case None => Views() == old(Views()) && forall k :: 0 <= k < |slots| ==> Views()[k].status != Idle
              case Some(i) =>
                && i < |slots| && old(Views())[i].status == Idle && generation == old(nextGeneration)
                && Views() == old(Views())[i := SlotView(Active, generation, [], [], [], [])]
    {
      for i := 0 to |slots|
        invariant Views() == old(Views()) && unchanged(this)
        invariant forall k :: 0 <= k < i ==> slots[k].status != Idle
      {
        if slots[i].status == Idle {
          slots[i].Reset(Active, nextGeneration);
          generation := nextGeneration;
          nextGeneration := nextGeneration + 1;
          return Some(i), generation;
        }
      }
      return None, 0;
    }

    /** detach(): empties the slot and puts it out of use. A second detach() under the same generation
        would leave the slot claimed for good; SlotProtocol shows that handles never cause one. */
    method Detach(slot: nat, generation: nat)
      requires Valid()
      modifies owned
      ensures Valid()
      ensures Views() == if slot < |slots| && old(Views())[slot].generation == generation
                         then old(Views())[slot := Detached(old(Views())[slot])] else old(Views())
    {
      if slot >= |slots| || slots[slot].generation != generation {
        return;
      }
      if slots[slot].status == Active {
        slots[slot].Reset(Idle, generation);
      } else {
        slots[slot].status := Claiming;
      }
      OneSlotChanged(slot);
    }

    /** write(): offers the block to every active slot. */
    method Write(source: seq<Frame>, sourceChannels: nat) returns (published: bool)
      requires Valid()
      modifies this`droppedBlocks, owned
      ensures Valid()
      ensures sourceChannels == channels && |source| == frames ==>
                && Views() == AfterWrites(old(Views()), source, capacity, |slots|)
                && (published <==> AnyAccepting(old(Views()), capacity))
      ensures sourceChannels != channels || |source| != frames ==>
                !published && Views() == old(Views()) && droppedBlocks == old(droppedBlocks) + 1
    {
      if sourceChannels != channels || |source| != frames {
        droppedBlocks := droppedBlocks + 1;
        return false;
      }
      published := WriteToAll(source);
    }

    method WriteToAll(source: seq<Frame>) returns (published: bool)
      requires Valid() && |source| == frames
      modifies this`droppedBlocks, owned
      ensures Valid()
      ensures Views() == AfterWrites(old(Views()), source, capacity, |slots|)
      ensures published <==> AnyAccepting(old(Views()), capacity)
    {
      published := false;
      ghost var was := Views();
      for i := 0 to |slots|
        invariant Valid()
        invariant Views() == AfterWrites(was, source, capacity, i)
        invariant published <==> AnyAccepting(was[..i], capacity)
      {
        var ok := WriteTo(i, source);
        published := published || ok;
        NextWrite(was, source, capacity, i);
        AnyAcceptingNext(was, i, capacity);
      }
      assert was[..|slots|] == was;
    }

    method WriteTo(i: nat, source: seq<Frame>) returns (ok: bool)
      requires Valid() && i < |slots| && |source| == frames
      modifies this`droppedBlocks, owned
      ensures Valid() && ok == Accepting(old(Views())[i], capacity)
      ensures Views() == old(Views())[i := AfterWrite(old(Views())[i], source, capacity)]
    {
      if slots[i].status != Active {
        return false;
      }
      ok := slots[i].WriteBlock(source);
      OneSlotChanged(i);
      if !ok {
        droppedBlocks := droppedBlocks + 1;
      }
    }

    /** Whether a handle is the current handle of an active slot. */
    predicate Current(slot: nat, generation: nat)
      reads set k | 0 <= k < |slots| :: slots[k]
    {
      slot < |slots| && slots[slot].status == Active && slots[slot].generation == generation
    }

    /** available_frames() through a handle. */
    function AvailableFrames(slot: nat, generation: nat): nat
      requires SlotsValid()
      reads owned
    {
      if Current(slot, generation) then slots[slot].AvailableFrames() else 0
    }

    /** read() through a handle: all the frames asked for, or silence and no change of the stream. */
    method Read(slot: nat, generation: nat, destination: array<Frame>, destinationChannels: nat) returns (ok: bool)
      requires Valid() && destination !in owned
      modifies this`consumerUnderflows, owned, destination
      ensures Valid()
      ensures ok <==> && destinationChannels == channels && 0 < destination.Length <= MAX_FRAMES_PER_BLOCK
                      && old(AvailableFrames(slot, generation)) >= destination.Length
      ensures ReadOf(old(Views()), Views(), slot, if ok then destination[..] else [])
      ensures !ok ==> Silent(destination, destinationChannels)
      ensures consumerUnderflows == old(consumerUnderflows) + if ok then 0 else 1
    {
      ClearFrames(destination, destinationChannels);
      NothingChanged();
      ok := ReadCleared(slot, generation, destination, destinationChannels);
    }

    method ReadCleared(slot: nat, generation: nat, destination: array<Frame>, destinationChannels: nat) returns (ok: bool)
      requires Valid() && destination !in owned && Silent(destination, destinationChannels)
      modifies this`consumerUnderflows, owned, destination
      ensures Valid()
      ensures ok <==> && destinationChannels == channels && 0 < destination.Length <= MAX_FRAMES_PER_BLOCK
                      && old(AvailableFrames(slot, generation)) >= destination.Length
      ensures ReadOf(old(Views()), Views(), slot, if ok then destination[..] else [])
      ensures !ok ==> Silent(destination, destinationChannels)
      ensures consumerUnderflows == old(consumerUnderflows) + if ok then 0 else 1
    {
      if destinationChannels != channels || destination.Length == 0 || destination.Length > MAX_FRAMES_PER_BLOCK
         || !Current(slot, generation) {
        consumerUnderflows := consumerUnderflows + 1;
        return false;
      }
      ok := ReadFrom(slot, destination);
      consumerUnderflows := consumerUnderflows + if ok then 0 else 1;
    }

    method ReadFrom(slot: nat, destination: array<Frame>) returns (ok: bool)
      requires Valid() && slot < |slots| && destination !in owned && destination.Length <= MAX_FRAMES_PER_BLOCK
      modifies owned, destination
      ensures Valid()
      ensures ok <==> old(slots[slot].AvailableFrames()) >= destination.Length
      ensures ReadOf(old(Views()), Views(), slot, if ok then destination[..] else [])
      ensures !ok ==> unchanged(destination)
    {
      var overflowed;
      ok, overflowed := slots[slot].ReadFrames(destination);
      OneSlotChanged(slot);
    }
  }
}
