/** The circular block queue of a Virtual ASIO bus slot while the slot is in use: one producer and one
    consumer, interleaved at every load and store of an index and every copy of a block, under
    sequential consistency (a modelling assumption). AudioFifo.BlockQueue is the same queue with its
    operations run one after the other. */
module BlockQueueProtocol {
  import opened AudioFifo

  type Block = seq<Frame>

  /** `Clear`: the load of the other side's index left room for this operation. `Copied`: the block has
      been copied in or out; the own index is still to be stored. */
  datatype Phase = Idle | Clear(block: Block) | Copied(block: Block)

  /** How far attach() or detach() has got in clearing the slot around the queue: it stores the read index,
      then the write index, then clears the pending FIFO. */
  datatype Life = InUse | ReadCleared | IndicesCleared

  datatype State = State(
    cells: seq<Block>,
    read: nat,
    write: nat,
    producer: Phase,
    consumer: Phase,
    pushed: seq<Block>,
    popped: seq<Block>)

  datatype Step =
    | ProducerLook(block: Block)
    | ProducerCopy
    | ProducerPublish
    | ConsumerLook
    | ConsumerCopy
    | ConsumerRelease

  predicate Shaped(s: State) {
    |s.cells| > 1 && s.read < |s.cells| && s.write < |s.cells|
  }

  function Increment(s: State, index: nat): (next: nat)
    requires Shaped(s)
    ensures next < |s.cells|
  {
    (index + 1) % |s.cells|
  }

  /** One atomic step; a step whose thread is elsewhere leaves the state alone. */
  function Next(s: State, step: Step): (r: State)
    requires Shaped(s)
    ensures Shaped(r)
  {
    match step
    case ProducerLook(block) =>
      if s.producer != Idle || Increment(s, s.write) == s.read then s else s.(producer := Clear(block))
    case ProducerCopy =>
      if s.producer.Clear? then s.(cells := s.cells[s.write := s.producer.block], producer := Copied(s.producer.block))
      else s
    case ProducerPublish =>
      if s.producer.Copied? then
        s.(write := Increment(s, s.write), producer := Idle, pushed := s.pushed + [s.producer.block])
      else s
    case ConsumerLook =>
      if s.consumer != Idle || s.read == s.write then s else s.(consumer := Clear([]))
    case ConsumerCopy =>
      if s.consumer.Clear? then s.(consumer := Copied(s.cells[s.read])) else s
    case ConsumerRelease =>
      if s.consumer.Copied? then
        s.(read := Increment(s, s.read), consumer := Idle, popped := s.popped + [s.consumer.block])
      else s
  }

  /** The number of blocks between the indices. */
  function Depth(s: State): (d: nat)
    requires Shaped(s)
    ensures d < |s.cells|
  {
    if s.write >= s.read then s.write - s.read else |s.cells| - s.read + s.write
  }

  /** The frames in a number of blocks of one size. */
  function Volume(blocks: int, frames: nat): int {
    blocks * frames
  }

  lemma VolumeSteps(blocks: int, frames: nat)
    ensures Volume(blocks, frames) == Volume(blocks - 1, frames) + frames
    ensures blocks >= 0 ==> Volume(blocks, frames) >= 0
  {
  }

  /** The blocks between the indices, oldest first. */
  ghost function Queued(s: State): seq<Block>
    requires Shaped(s)
  {
    Window(s.cells, s.read, Depth(s))
  }

  ghost predicate Inv(s: State) {
    && Shaped(s)
    && s.pushed == s.popped + Queued(s)
    && (s.producer != Idle ==> Depth(s) + 1 < |s.cells|)
    && (s.producer.Copied? ==> s.cells[s.write] == s.producer.block)
    && (s.consumer != Idle ==> Depth(s) > 0)
    && (s.consumer.Copied? ==> s.cells[s.read] == s.consumer.block)
  }

  lemma StepDepth(s: State)
    requires Shaped(s)
    ensures Increment(s, s.write) == s.read <==> Depth(s) + 1 == |s.cells|
    ensures Increment(s, s.write) == if s.write + 1 < |s.cells| then s.write + 1 else 0
    ensures Increment(s, s.read) == if s.read + 1 < |s.cells| then s.read + 1 else 0
  {
    Wraps(s.write + 1, |s.cells|);
    Wraps(s.read + 1, |s.cells|);
  }

  lemma FullIff(s: State)
    requires Shaped(s)
    ensures Increment(s, s.write) == s.read <==> Depth(s) + 1 == |s.cells|
  {
    StepDepth(s);
  }

  lemma PublishDepth(s: State)
    requires Inv(s) && s.producer.Copied?
    ensures Depth(Next(s, ProducerPublish)) == Depth(s) + 1
  {
    StepDepth(s);
  }

  lemma ReleaseDepth(s: State)
    requires Inv(s) && s.consumer.Copied?
    ensures Depth(Next(s, ConsumerRelease)) == Depth(s) - 1
  {
    StepDepth(s);
  }

  /** A queue whose two indices are zero is empty. */
  lemma Cleared(s: State)
    requires Shaped(s) && s.read == 0 && s.write == 0 && s.producer == Idle && s.consumer == Idle
    requires s.pushed == [] && s.popped == []
    ensures Inv(s) && Queued(s) == []
  {
    assert Queued(s) == [];
  }

  lemma PublishHolds(s: State)
    requires Inv(s)
    ensures Inv(Next(s, ProducerPublish))
  {
    StepDepth(s);
    if s.producer.Copied? {
      assert Queued(Next(s, ProducerPublish)) == Queued(s) + [s.producer.block];
    }
  }

  lemma ReleaseHolds(s: State)
    requires Inv(s)
    ensures Inv(Next(s, ConsumerRelease))
  {
    StepDepth(s);
    if s.consumer.Copied? {
      WindowTail(s.cells, s.read, Depth(s));
    }
  }

  /** Copying a block in touches no cell between the indices. */
  lemma CopyHolds(s: State)
    requires Inv(s)
    ensures Inv(Next(s, ProducerCopy))
  {
    if s.producer.Clear? {
      assert Queued(Next(s, ProducerCopy)) == Queued(s);
    }
  }

  lemma StepHolds(s: State, step: Step)
    requires Inv(s)
    ensures Inv(Next(s, step))
  {
    match step
    case ProducerLook(_) => StepDepth(s);
    case ProducerCopy => CopyHolds(s);
    case ProducerPublish => PublishHolds(s);
    case ConsumerRelease => ReleaseHolds(s);
    case _ =>
  }

  predicate Initial(s: State) {
    && |s.cells| > 1 && s.read == 0 && s.write == 0
    && s.producer == Idle && s.consumer == Idle && s.pushed == [] && s.popped == []
  }

  /** The state after an interleaving of steps. */
  ghost function Run(s: State, steps: seq<Step>): (r: State)
    requires Shaped(s)
    ensures Shaped(r)
    decreases |steps|
  {
    if steps == [] then s else Run(Next(s, steps[0]), steps[1..])
  }

  lemma {:induction false} RunHolds(s: State, steps: seq<Step>)
    requires Inv(s)
    ensures Inv(Run(s, steps))
    decreases |steps|
  {
    if steps != [] {
      StepHolds(s, steps[0]);
      RunHolds(Next(s, steps[0]), steps[1..]);
    }
  }

  /** In every interleaving the consumer gets the pushed blocks, in order: none lost, repeated or torn.
      What it has not got yet lies between the indices. */
  lemma PopsReturnPushes(s: State, steps: seq<Step>)
    requires Initial(s)
    ensures var r := Run(s, steps); r.pushed == r.popped + Queued(r) && |Queued(r)| < |r.cells|
  {
    RunHolds(s, steps);
  }

  /** The cell the producer copies into is never one the consumer may be copying from. */
  lemma NeverCopiesIntoTheCellBeingRead(s: State, steps: seq<Step>)
    requires Initial(s)
    ensures var r := Run(s, steps); r.producer.Clear? && r.consumer != Idle ==> r.write != r.read
  {
    RunHolds(s, steps);
  }
}
