/** One slot of the capture bus with everything that touches its frames: write() on the graph side, the queue,
    read() with its pending FIFO on the handle side, and the clearing of the slot. Each step does one load or
    store of a shared index or one copy of a block, under sequential consistency (a modelling assumption),
    along with what its thread does in private. BusProtocol interleaves the steps. */
module CaptureStreamProtocol {
  import opened Basics
  import opened AudioFifo
  import Q = BlockQueueProtocol

  type Frames = seq<Frame>

  /** Where read() stands on its way to `count` frames. */
  datatype Consumer =
    | Resting
    | Gathering(count: nat)
    | Deciding(count: nat)

  /** `accepted` holds the frames of every block queued, and `delivered` those read() has handed out, since the
      slot was cleared; `enough` says that the frames asked for were available when the current read began.
      `overflowed` and `wronged` record what must not happen: that the overflow branch is taken, and that a read
      for which there were enough frames fails. */
  datatype State = State(
    frames: nat,
    life: Q.Life,
    queue: Q.State,
    pending: Frames,
    consumer: Consumer,
    accepted: Frames,
    delivered: Frames,
    enough: bool,
    overflowed: bool,
    wronged: bool)

  predicate Shaped(s: State) {
    Q.Shaped(s.queue) && s.frames > 0
  }

  function PendingCapacity(s: State): int
    requires Shaped(s)
  {
    MAX_FRAMES_PER_BLOCK + Q.Volume(|s.queue.cells| - 1, s.frames)
  }

  /** Queued blocks that are not in the pending FIFO as well. */
  function Unread(s: State): int
    requires Shaped(s)
  {
    Q.Depth(s.queue) - if s.queue.consumer.Copied? then 1 else 0
  }

  /** available_frames(), not counting a block twice. */
  function Available(s: State): int
    requires Shaped(s)
  {
    |s.pending| + Q.Volume(Unread(s), s.frames)
  }

  predicate HandleAtRest(s: State) {
    s.consumer.Resting?
  }

  predicate GraphAtRest(s: State) {
    s.queue.producer.Idle?
  }

  /** The next step of read(); at rest, the call of read() with a destination of `buffer`'s length. */
  function HandleNext(s: State, buffer: Frames): (r: State)
    requires Shaped(s)
    ensures Shaped(r)
  {
    match s.consumer
    case Resting =>
      if 0 < |buffer| <= MAX_FRAMES_PER_BLOCK
      then s.(consumer := Gathering(|buffer|), enough := Available(s) >= |buffer|) else s
    case Gathering(count) =>
      if s.queue.consumer.Idle? then
        if |s.pending| >= count || s.queue.read == s.queue.write then s.(consumer := Deciding(count))
        else s.(queue := Q.Next(s.queue, Q.ConsumerLook))
      else if s.queue.consumer.Clear? then
        if PendingCapacity(s) - |s.pending| < |s.queue.cells[s.queue.read]| then
          s.(consumer := Deciding(count), queue := s.queue.(consumer := Q.Idle), overflowed := true)
        else s.(pending := s.pending + s.queue.cells[s.queue.read], queue := Q.Next(s.queue, Q.ConsumerCopy))
      else s.(queue := Q.Next(s.queue, Q.ConsumerRelease))
    case Deciding(count) =>
      if |s.pending| < count then s.(consumer := Resting, wronged := s.wronged || s.enough)
      else s.(consumer := Resting, pending := s.pending[count..], delivered := s.delivered + s.pending[..count])
  }

  /** The next step of write() on this slot; at rest, the look that begins it, which drops the block when the
      queue is full. */
  function GraphMove(q: Q.State, block: Frames): Q.Step {
    match q.producer
    case Idle => Q.ProducerLook(block)
    case Clear(_) => Q.ProducerCopy
    case Copied(_) => Q.ProducerPublish
  }

  function GraphNext(s: State, buffer: Frames): (r: State)
    requires Shaped(s)
    ensures Shaped(r)
  {
    if s.queue.producer.Idle? && |buffer| != s.frames then s
    else
      s.(queue := Q.Next(s.queue, GraphMove(s.queue, buffer)),
         accepted := s.accepted + if s.queue.producer.Copied? then s.queue.producer.block else [])
  }

  function ClearNext(s: State): (r: State)
    requires Shaped(s)
    ensures Shaped(r)
  {
    match s.life
    case InUse => s.(life := Q.ReadCleared, queue := s.queue.(read := 0))
    case ReadCleared => s.(life := Q.IndicesCleared, queue := s.queue.(write := 0))
    case IndicesCleared =>
      s.(life := Q.InUse, pending := [], accepted := [], delivered := [], queue := s.queue.(pushed := [], popped := []))
  }

  /** The block that is both in the queue and in the pending FIFO. */
  function InHand(s: State): Frames {
    if s.queue.consumer.Copied? then s.queue.consumer.block else []
  }

  ghost predicate Uniform(s: State) {
    && (forall k :: 0 <= k < |s.queue.pushed| ==> |s.queue.pushed[k]| == s.frames)
    && (!s.queue.producer.Idle? ==> |s.queue.producer.block| == s.frames)
  }

  /** What read() knows while it is under way. */
  ghost predicate ReaderInv(s: State)
    requires Shaped(s)
  {
    match s.consumer
    case Resting => s.queue.consumer.Idle?
    case Gathering(count) =>
      && count <= MAX_FRAMES_PER_BLOCK && (s.enough ==> Available(s) >= count)
      && (s.queue.consumer.Clear? ==> |s.pending| < count)
    case Deciding(count) =>
      s.queue.consumer.Idle? && count <= MAX_FRAMES_PER_BLOCK && (s.enough ==> |s.pending| >= count)
  }

  ghost predicate StreamInv(s: State) {
    && s.delivered + s.pending == Flatten(s.queue.popped) + InHand(s)
    && s.accepted == Flatten(s.queue.pushed)
  }

  ghost predicate Inv(s: State) {
    && Shaped(s) && !s.overflowed && !s.wronged
    && match s.life
       case InUse => Q.Inv(s.queue) && Uniform(s) && ReaderInv(s) && StreamInv(s)
       case ReadCleared => HandleAtRest(s) && s.queue.consumer.Idle? && GraphAtRest(s) && s.queue.read == 0
       case IndicesCleared =>
         HandleAtRest(s) && s.queue.consumer.Idle? && GraphAtRest(s) && s.queue.read == 0 && s.queue.write == 0
  }

  /** The oldest queued block is in the cell at the read index and has the size of every block. */
  lemma OldestBlock(s: State)
    requires Inv(s) && s.life.InUse? && Q.Depth(s.queue) > 0
    ensures Q.Queued(s.queue)[0] == s.queue.cells[s.queue.read] && |s.queue.cells[s.queue.read]| == s.frames
  {
    assert s.queue.pushed[|s.queue.popped|] == Q.Queued(s.queue)[0];
  }

  lemma CopyHolds(s: State, buffer: Frames)
    requires Inv(s) && s.life.InUse? && s.consumer.Gathering? && s.queue.consumer.Clear?
    ensures Inv(HandleNext(s, buffer))
  {
    OldestBlock(s);
    hide Q.Inv, Q.Volume, Flatten;
    Q.StepHolds(s.queue, Q.ConsumerCopy);
    Q.VolumeSteps(|s.queue.cells| - 1, s.frames);
    Q.VolumeSteps(|s.queue.cells| - 2, s.frames);
    Q.VolumeSteps(Q.Depth(s.queue), s.frames);
    var block := s.queue.cells[s.queue.read];
    assert s.delivered + (s.pending + block) == (s.delivered + s.pending) + block;
  }

  lemma ReleaseHolds(s: State, buffer: Frames)
    requires Inv(s) && s.life.InUse? && s.consumer.Gathering? && s.queue.consumer.Copied?
    ensures Inv(HandleNext(s, buffer))
  {
    hide Q.Inv, Q.Volume, Flatten;
    Q.StepHolds(s.queue, Q.ConsumerRelease);
    Q.ReleaseDepth(s.queue);
    FlattenAppend(s.queue.popped, s.queue.consumer.block);
  }

  lemma DecideHolds(s: State, buffer: Frames)
    requires Inv(s) && s.life.InUse? && s.consumer.Deciding?
    ensures Inv(HandleNext(s, buffer))
  {
    hide Q.Inv, Q.Volume, Flatten;
    var count := s.consumer.count;
    if |s.pending| >= count {
      assert s.delivered + s.pending == (s.delivered + s.pending[..count]) + s.pending[count..];
    }
  }

  lemma LookHolds(s: State, buffer: Frames)
    requires Inv(s) && s.life.InUse? && s.consumer.Gathering? && s.queue.consumer.Idle?
    ensures Inv(HandleNext(s, buffer))
  {
    hide Flatten;
    Q.StepHolds(s.queue, Q.ConsumerLook);
  }

  lemma StartHolds(s: State, buffer: Frames)
    requires Inv(s) && s.life.InUse? && s.consumer.Resting?
    ensures Inv(HandleNext(s, buffer))
  {
    hide Q.Inv, Q.Volume, Flatten;
  }

  lemma HandleRuns(s: State, buffer: Frames)
    requires Shaped(s)
    ensures HandleNext(s, buffer).life == s.life && GraphAtRest(HandleNext(s, buffer)) == GraphAtRest(s)
  {
  }

  lemma HandleHolds(s: State, buffer: Frames)
    requires Inv(s) && s.life.InUse?
    ensures Inv(HandleNext(s, buffer)) && HandleNext(s, buffer).life == s.life
    ensures GraphAtRest(HandleNext(s, buffer)) == GraphAtRest(s)
  {
    HandleRuns(s, buffer);
    hide HandleNext, Q.Inv, Uniform, StreamInv;
    if s.consumer.Resting? {
      StartHolds(s, buffer);
    } else if s.consumer.Deciding? {
      DecideHolds(s, buffer);
    } else if s.queue.consumer.Idle? {
      LookHolds(s, buffer);
    } else if s.queue.consumer.Clear? {
      CopyHolds(s, buffer);
    } else {
      ReleaseHolds(s, buffer);
    }
  }

  lemma PublishHolds(s: State, buffer: Frames)
    requires Inv(s) && s.life.InUse? && s.queue.producer.Copied?
    ensures Inv(GraphNext(s, buffer))
  {
    hide Q.Inv, Q.Volume, Flatten;
    Q.StepHolds(s.queue, Q.ProducerPublish);
    Q.PublishDepth(s.queue);
    FlattenAppend(s.queue.pushed, s.queue.producer.block);
    Q.VolumeSteps(Unread(GraphNext(s, buffer)), s.frames);
  }

  lemma GraphHolds(s: State, buffer: Frames)
    requires Inv(s) && s.life.InUse?
    ensures Inv(GraphNext(s, buffer)) && GraphNext(s, buffer).life == s.life
    ensures HandleAtRest(GraphNext(s, buffer)) == HandleAtRest(s)
  {
    hide Q.Inv, Q.Volume, Flatten;
    if s.queue.producer.Copied? {
      PublishHolds(s, buffer);
    } else {
      Q.StepHolds(s.queue, GraphMove(s.queue, buffer));
    }
  }

  lemma ClearHolds(s: State)
    requires Inv(s) && HandleAtRest(s) && GraphAtRest(s)
    ensures Inv(ClearNext(s)) && HandleAtRest(ClearNext(s)) && GraphAtRest(ClearNext(s))
  {
    if s.life.IndicesCleared? {
      Q.Cleared(ClearNext(s).queue);
    }
  }

  predicate Initial(s: State) {
    Shaped(s) && s.life.InUse? && Q.Initial(s.queue) && s.pending == [] && s.consumer.Resting? && s.accepted == []
    && s.delivered == [] && !s.overflowed && !s.wronged
  }

  lemma InitialHolds(s: State)
    requires Initial(s)
    ensures Inv(s)
  {
    Q.Cleared(s.queue);
  }

  /** The queued blocks that are not yet pending. */
  ghost function Behind(s: State): seq<Frames>
    requires Shaped(s)
  {
    if s.queue.consumer.Copied? && Q.Queued(s.queue) != [] then Q.Queued(s.queue)[1..] else Q.Queued(s.queue)
  }

  /** The block in hand is the oldest in the queue. */
  lemma BehindHand(s: State)
    requires Shaped(s) && Q.Inv(s.queue)
    ensures Flatten(Q.Queued(s.queue)) == InHand(s) + Flatten(Behind(s)) && |Behind(s)| == Unread(s)
  {
    if s.queue.consumer.Copied? {
      assert Q.Queued(s.queue)[0] == s.queue.consumer.block;
    }
  }

  /** The frames handed out, then the pending ones, then those of the queued blocks not yet pending, are
      exactly the frames of the blocks queued; nothing overflowed, and no read failed that had enough. */
  ghost predicate Kept(s: State) {
    && Shaped(s) && !s.overflowed && !s.wronged
    && (s.life.InUse? ==> s.delivered + s.pending + Flatten(Behind(s)) == s.accepted && |Behind(s)| == Unread(s))
  }

  lemma Rejoined(out: Frames, popped: Frames, hand: Frames, behind: Frames)
    requires out == popped + hand
    ensures out + behind == popped + (hand + behind)
  {
  }

  lemma InvKept(s: State)
    requires Inv(s)
    ensures Kept(s)
  {
    if s.life.InUse? {
      FlattenSplits(s.queue.popped, Q.Queued(s.queue));
      BehindHand(s);
      Rejoined(s.delivered + s.pending, Flatten(s.queue.popped), InHand(s), Flatten(Behind(s)));
      hide Flatten, Behind, Unread, Q.Volume, Q.Queued, Uniform, ReaderInv, InHand;
      assert Flatten(s.queue.pushed) == Flatten(s.queue.popped) + Flatten(Q.Queued(s.queue));
    }
  }
}
