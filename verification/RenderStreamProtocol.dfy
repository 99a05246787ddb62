/** One slot of the render bus with everything that touches its frames: push() with its pending FIFO on the
    handle side, the queue, read() on the graph side, and the clearing of the slot. Each step does one load
    or store of a shared index or one copy of a block, under sequential consistency (a modelling assumption),
    along with what its thread does in private. BusProtocol interleaves the steps. */
module RenderStreamProtocol {
  import opened Basics
  import opened AudioFifo
  import Q = BlockQueueProtocol

  type Frames = seq<Frame>

  /** Where push() stands. `source` is still to be decided on; the drain that follows its append has none.
      `Moving` carries the block that drain_pending() has taken out of the pending FIFO. */
  datatype Producer =
    | Resting
    | Draining(source: Option<Frames>)
    | Moving(source: Option<Frames>, block: Frames)
    | Deciding(offer: Frames)

  /** `accepted` holds the frames of every push accepted since the slot was cleared; `roomy` says that there
      was room when the current push began. `dropped` and `wronged` record what must not happen: that the drop
      path is taken, and that a push for which there was room is refused. */
  datatype State = State(
    frames: nat,
    life: Q.Life,
    queue: Q.State,
    pending: Frames,
    producer: Producer,
    accepted: Frames,
    roomy: bool,
    dropped: bool,
    wronged: bool)

  predicate Shaped(s: State) {
    Q.Shaped(s.queue) && s.frames > 0
  }

  function Capacity(s: State): nat
    requires Shaped(s)
  {
    |s.queue.cells| - 1
  }

  predicate Full(s: State)
    requires Shaped(s)
  {
    Q.Increment(s.queue, s.queue.write) == s.queue.read
  }

  /** The block that is in neither the pending FIFO nor the queue. */
  function InFlight(s: State): Frames {
    if s.producer.Moving? then s.producer.block else []
  }

  /** Frames inside the slot. */
  function Buffered(s: State): nat
    requires Shaped(s)
  {
    Q.Volume(Q.Depth(s.queue), s.frames) + |InFlight(s)| + |s.pending|
  }

  /** The condition under which Bus.Push of RenderBus accepts `n` frames. */
  predicate HasRoom(s: State, n: nat)
    requires Shaped(s)
  {
    Buffered(s) < Q.Volume(Capacity(s), s.frames) || Buffered(s) + n < Q.Volume(Capacity(s) + 1, s.frames)
  }

  predicate HandleAtRest(s: State) {
    s.producer.Resting?
  }

  predicate GraphAtRest(s: State) {
    s.queue.consumer.Idle?
  }

  /** What follows a drain: the decision on the source, or the end of push(). */
  function Drained(source: Option<Frames>): Producer {
    if source.Some? then Deciding(source.value) else Resting
  }

  /** The next step of push(); at rest, the call of push() with `buffer`. */
  function HandleNext(s: State, buffer: Frames): (r: State)
    requires Shaped(s)
    ensures Shaped(r)
  {
    match s.producer
    case Resting =>
      if 0 < |buffer| <= MAX_FRAMES_PER_BLOCK
      then s.(producer := Draining(Some(buffer)), roomy := HasRoom(s, |buffer|)) else s
    case Draining(source) =>
      if |s.pending| < s.frames || Full(s) then s.(producer := Drained(source))
      else s.(pending := s.pending[s.frames..], producer := Moving(source, s.pending[..s.frames]))
    case Moving(source, block) =>
      if s.queue.producer.Idle? then
        if Full(s) then s.(producer := Drained(source), dropped := true)
        else s.(queue := Q.Next(s.queue, Q.ProducerLook(block)))
      else if s.queue.producer.Clear? then s.(queue := Q.Next(s.queue, Q.ProducerCopy))
      else s.(queue := Q.Next(s.queue, Q.ProducerPublish), producer := Draining(source))
    case Deciding(source) =>
      if (Full(s) && |s.pending| + |source| >= s.frames) || |source| > MAX_FRAMES_PER_BLOCK + s.frames - |s.pending| then
        s.(producer := Resting, wronged := s.wronged || s.roomy)
      else s.(producer := Draining(None), pending := s.pending + source, accepted := s.accepted + source)
  }

  /** The next step of read() on this slot: load the write index, mix the block in, store the read index. */
  function GraphMove(q: Q.State): Q.Step {
    match q.consumer
    case Idle => Q.ConsumerLook
    case Clear(_) => Q.ConsumerCopy
    case Copied(_) => Q.ConsumerRelease
  }

  function GraphNext(s: State): (r: State)
    requires Shaped(s)
    ensures Shaped(r)
  {
    s.(queue := Q.Next(s.queue, GraphMove(s.queue)))
  }

  function ClearNext(s: State): (r: State)
    requires Shaped(s)
    ensures Shaped(r)
  {
    match s.life
    case InUse => s.(life := Q.ReadCleared, queue := s.queue.(read := 0))
    case ReadCleared => s.(life := Q.IndicesCleared, queue := s.queue.(write := 0))
    case IndicesCleared =>
      s.(life := Q.InUse, pending := [], accepted := [], queue := s.queue.(pushed := [], popped := []))
  }

  /** The push that is under way is small enough, and still has the room it began with. */
  ghost predicate RoomKept(s: State)
    requires Shaped(s)
  {
    match s.producer
    case Resting => true
    case Deciding(offer) => |offer| <= MAX_FRAMES_PER_BLOCK && (s.roomy ==> HasRoom(s, |offer|) && |s.pending| < s.frames)
    case _ =>
      s.producer.source.Some? ==>
        && |s.producer.source.value| <= MAX_FRAMES_PER_BLOCK
        && (s.roomy ==> HasRoom(s, |s.producer.source.value|))
  }

  /** The queue has room for the block in flight, and is being given no other. */
  ghost predicate ProducerInv(s: State)
    requires Shaped(s)
  {
    && (s.producer.Moving? ==>
          && |s.producer.block| == s.frames && Q.Depth(s.queue) < Capacity(s)
          && (!s.queue.producer.Idle? ==> s.queue.producer.block == s.producer.block))
    && (!s.producer.Moving? ==> s.queue.producer.Idle?)
  }

  ghost predicate Inv(s: State) {
    && Shaped(s) && !s.dropped && !s.wronged
    && match s.life
       case InUse =>
         && Q.Inv(s.queue) && ProducerInv(s) && RoomKept(s)
         && Flatten(s.queue.pushed) + InFlight(s) + s.pending == s.accepted
       case ReadCleared => HandleAtRest(s) && s.queue.producer.Idle? && GraphAtRest(s) && s.queue.read == 0
       case IndicesCleared =>
         HandleAtRest(s) && s.queue.producer.Idle? && GraphAtRest(s) && s.queue.read == 0 && s.queue.write == 0
  }

  /** A slot whose queue is full has room only for less than a block. */
  lemma RoomWhenFull(s: State, n: nat)
    requires Shaped(s) && Q.Depth(s.queue) == Capacity(s) && InFlight(s) == [] && HasRoom(s, n)
    ensures |s.pending| + n < s.frames
  {
    Q.VolumeSteps(Capacity(s) + 1, s.frames);
  }

  lemma DrainEndHolds(s: State, buffer: Frames)
    requires Inv(s) && s.life.InUse? && s.producer.Draining? && (|s.pending| < s.frames || Full(s))
    ensures Inv(HandleNext(s, buffer))
  {
    hide Q.Inv, Q.Volume, Flatten;
    if s.producer.source.Some? && s.roomy && Full(s) {
      Q.FullIff(s.queue);
      RoomWhenFull(s, |s.producer.source.value|);
    }
  }

  lemma TakeHolds(s: State, buffer: Frames)
    requires Inv(s) && s.life.InUse? && s.producer.Draining? && |s.pending| >= s.frames && !Full(s)
    ensures Inv(HandleNext(s, buffer))
  {
    hide Q.Inv, Q.Volume, Flatten;
    var r := HandleNext(s, buffer);
    Q.FullIff(s.queue);
    assert s.pending == r.producer.block + r.pending;
    assert Flatten(s.queue.pushed) + [] + s.pending == Flatten(s.queue.pushed) + r.producer.block + r.pending;
    assert Buffered(r) == Buffered(s);
  }

  lemma EnqueueHolds(s: State, buffer: Frames)
    requires Inv(s) && s.life.InUse? && s.producer.Moving? && !s.queue.producer.Copied?
    ensures Inv(HandleNext(s, buffer))
  {
    hide Q.Inv, Q.Volume, Flatten;
    Q.FullIff(s.queue);
    Q.StepHolds(s.queue, if s.queue.producer.Idle? then Q.ProducerLook(s.producer.block) else Q.ProducerCopy);
    assert Buffered(HandleNext(s, buffer)) == Buffered(s);
  }

  lemma PublishHolds(s: State, buffer: Frames)
    requires Inv(s) && s.life.InUse? && s.producer.Moving? && s.queue.producer.Copied?
    ensures Inv(HandleNext(s, buffer))
  {
    hide Q.Inv, Q.Volume, Flatten;
    Q.StepHolds(s.queue, Q.ProducerPublish);
    Q.PublishDepth(s.queue);
    Q.VolumeSteps(Q.Depth(s.queue) + 1, s.frames);
    FlattenAppend(s.queue.pushed, s.queue.producer.block);
    assert Buffered(HandleNext(s, buffer)) == Buffered(s);
  }

  lemma DecideHolds(s: State, buffer: Frames)
    requires Inv(s) && s.life.InUse? && s.producer.Deciding?
    ensures Inv(HandleNext(s, buffer))
  {
    hide Q.Inv, Q.Volume, Flatten;
    var offer := s.producer.offer;
    if s.roomy && Full(s) {
      Q.FullIff(s.queue);
      RoomWhenFull(s, |offer|);
    }
    assert Flatten(s.queue.pushed) + [] + (s.pending + offer) == (Flatten(s.queue.pushed) + [] + s.pending) + offer;
  }

  lemma HandleRuns(s: State, buffer: Frames)
    requires Shaped(s)
    ensures HandleNext(s, buffer).life == s.life && GraphAtRest(HandleNext(s, buffer)) == GraphAtRest(s)
  {
  }

  lemma HandleHolds(s: State, buffer: Frames)
    requires Inv(s) && s.life.InUse?
    ensures Inv(HandleNext(s, buffer)) && HandleNext(s, buffer).life == s.life
    ensures GraphAtRest(HandleNext(s, buffer)) == GraphAtRest(s)
  {
    HandleRuns(s, buffer);
    hide Q.Inv, Q.Volume, Flatten;
    match s.producer
    case Resting =>
    case Draining(_) =>
      if |s.pending| < s.frames || Full(s) {
        DrainEndHolds(s, buffer);
      } else {
        TakeHolds(s, buffer);
      }
    case Moving(_, _) =>
      if s.queue.producer.Copied? {
        PublishHolds(s, buffer);
      } else {
        EnqueueHolds(s, buffer);
      }
    case Deciding(_) => DecideHolds(s, buffer);
  }

  lemma GraphHolds(s: State)
    requires Inv(s) && s.life.InUse?
    ensures Inv(GraphNext(s)) && GraphNext(s).life == s.life
    ensures HandleAtRest(GraphNext(s)) == HandleAtRest(s)
  {
    hide Q.Inv, Q.Volume, Flatten;
    Q.StepHolds(s.queue, GraphMove(s.queue));
    if s.queue.consumer.Copied? {
      Q.ReleaseDepth(s.queue);
      Q.VolumeSteps(Q.Depth(s.queue), s.frames);
    }
    assert Buffered(GraphNext(s)) <= Buffered(s);
  }

  lemma ClearHolds(s: State)
    requires Inv(s) && HandleAtRest(s) && GraphAtRest(s)
    ensures Inv(ClearNext(s)) && HandleAtRest(ClearNext(s)) && GraphAtRest(ClearNext(s))
  {
    if s.life.IndicesCleared? {
      Q.Cleared(ClearNext(s).queue);
    }
  }

  predicate Initial(s: State) {
    Shaped(s) && s.life.InUse? && Q.Initial(s.queue) && s.pending == [] && s.producer.Resting? && s.accepted == []
    && !s.dropped && !s.wronged
  }

  lemma InitialHolds(s: State)
    requires Initial(s)
    ensures Inv(s)
  {
    Q.Cleared(s.queue);
  }

  /** The frames mixed in, then those in the queue, then the block on its way there, then the pending ones, are
      exactly the frames of the accepted pushes; nothing was dropped or wrongly refused. */
  ghost predicate Kept(s: State) {
    && Shaped(s) && !s.dropped && !s.wronged
    && (s.life.InUse? ==>
          Flatten(s.queue.popped) + Flatten(Q.Queued(s.queue)) + InFlight(s) + s.pending == s.accepted)
  }

  lemma InvKept(s: State)
    requires Inv(s)
    ensures Kept(s)
  {
    if s.life.InUse? {
      FlattenSplits(s.queue.popped, Q.Queued(s.queue));
    }
  }
}
