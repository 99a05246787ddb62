/** VirtualWasapiTransportRing under concurrency: one producer and one consumer, one load or store
    per step, audio copied byte by byte. Steps interleave freely; sequential consistency is a
    modelling assumption. The 64-bit sequences and counters are unbounded naturals. */
module RingProtocol {
  import opened Basics

  datatype Packet = Packet(frames: nat, flags: nat, devicePosition: nat, qpcPosition: nat)

  /** A packet together with its audio bytes. */
  datatype Parcel = Parcel(packet: Packet, audio: seq<u8>)

  datatype Slot = Slot(sequence: nat, packet: Packet, audio: seq<u8>)

  datatype Geometry = Geometry(slotCount: nat, framesPerSlot: nat, bytesPerFrame: nat, slotBytes: nat)

  /** Bit 0 of the flags marks silence, bit 1 a discontinuity; every other bit is rejected. */
  predicate Silent(p: Packet) {
    p.flags % 2 == 1
  }

  predicate KnownFlags(flags: nat) {
    flags < 4
  }

  function Bytes(g: Geometry, frames: nat): nat {
    frames * g.bytesPerFrame
  }

  ghost predicate Sound(g: Geometry) {
    g.slotCount > 0 && Bytes(g, g.framesPerSlot) <= g.slotBytes
  }

  /** The validation at the head of push(). */
  predicate Acceptable(g: Geometry, x: Parcel) {
    && 0 < x.packet.frames <= g.framesPerSlot
    && KnownFlags(x.packet.flags)
    && |x.audio| == if Silent(x.packet) then 0 else Bytes(g, x.packet.frames)
  }

  /** What a consumer must receive for a pushed parcel: its audio, or zeros if it was silent. */
  function Delivered(g: Geometry, x: Parcel): Parcel {
    if Silent(x.packet) then Parcel(x.packet, Zeros(Bytes(g, x.packet.frames))) else x
  }

  /** The order in which push() stores and pop() loads the parts of a slot. */
  const AUDIO: nat := 0
  const FRAMES: nat := 1
  const FLAGS: nat := 2
  const DEVICE: nat := 3
  const QPC: nat := 4
  const SEQUENCE: nat := 5
  const COUNT: nat := 6
  const PUBLISH: nat := 7

  /** `Writing` is the span between the room check and the publication: `part` is stored next. */
  datatype Producer =
    | PushIdle
    | PushRejecting
    | PushLoadingProducer(parcel: Parcel)
    | PushLoadingConsumer(parcel: Parcel, at: nat)
    | PushDropping(parcel: Parcel)
    | Writing(parcel: Parcel, at: nat, part: nat, copied: nat)

  /** `Checking` loads the header of the slot, `Copying` its audio; both lie between the emptiness
      check and the release of the slot. */
  datatype Consumer =
    | PopIdle
    | PopLoadingConsumer(span: nat)
    | PopLoadingProducer(span: nat, at: nat)
    | Checking(span: nat, at: nat, part: nat, header: Packet)
    | Copying(span: nat, at: nat, part: nat, header: Packet, copied: seq<u8>)
    | PopTooSmall(span: nat)        // InvalidPacket, cursor kept
    | PopMalformed(at: nat)         // InvalidPacket, slot skipped
    | PopOutOfRange                 // InvalidPacket, cursors inconsistent

  /** `pushed` and `popped` record the completed calls, in order. */
  datatype State = State(
    geometry: Geometry,
    producerSequence: nat,
    consumerSequence: nat,
    slots: seq<Slot>,
    producedFrames: nat,
    consumedFrames: nat,
    droppedFrames: nat,
    silenceFrames: nat,
    malformedPackets: nat,
    producer: Producer,
    consumer: Consumer,
    pushed: seq<Parcel>,
    popped: seq<Parcel>)

  datatype Action =
    | CallPush(parcel: Parcel)
    | CallPop(span: nat)
    | ProducerStep
    | ConsumerStep

  function SlotAt(s: State, sequence: nat): Slot
    requires s.geometry.slotCount > 0 && |s.slots| == s.geometry.slotCount
  {
    s.slots[sequence % s.geometry.slotCount]
  }

  function WithSlot(s: State, sequence: nat, slot: Slot): State
    requires s.geometry.slotCount > 0 && |s.slots| == s.geometry.slotCount
  {
    s.(slots := s.slots[sequence % s.geometry.slotCount := slot])
  }

  function SumFrames(xs: seq<Parcel>): nat {
    if xs == [] then 0 else SumFrames(xs[..|xs| - 1]) + xs[|xs| - 1].packet.frames
  }

  /** queued_frames(): the frames of the slots between the two cursors. */
  function QueuedFrames(s: State): nat
    requires s.geometry.slotCount > 0 && |s.slots| == s.geometry.slotCount
  {
    if s.producerSequence <= s.consumerSequence
       || s.producerSequence - s.consumerSequence > s.geometry.slotCount
    then 0
    else QueuedFrom(s, s.consumerSequence, s.producerSequence)
  }

  function QueuedFrom(s: State, from: nat, to: nat): nat
    requires s.geometry.slotCount > 0 && |s.slots| == s.geometry.slotCount && from <= to
  {
    if from == to then 0 else
      var slot := SlotAt(s, to - 1);
      QueuedFrom(s, from, to - 1) +
      if slot.sequence == to && slot.packet.frames <= s.geometry.framesPerSlot then slot.packet.frames else 0
  }

  ghost predicate Init(s: State) {
    && Sound(s.geometry)
    && s.producerSequence == 0 && s.consumerSequence == 0
    && |s.slots| == s.geometry.slotCount
    && (forall k :: 0 <= k < |s.slots| ==> |s.slots[k].audio| == s.geometry.slotBytes)
    && s.producedFrames == 0 && s.consumedFrames == 0
    && s.producer == PushIdle && s.consumer == PopIdle
    && s.pushed == [] && s.popped == []
  }

  /** One step of push(); each case is one access to the shared mapping. */
  function ProducerNext(s: State): State
    requires Shaped(s) && !s.producer.PushIdle?
  {
    match s.producer
    case PushRejecting =>
      s.(malformedPackets := s.malformedPackets + 1, producer := PushIdle)
    case PushLoadingProducer(x) =>
      s.(producer := PushLoadingConsumer(x, s.producerSequence))
    case PushLoadingConsumer(x, at) =>
      if at < s.consumerSequence || at - s.consumerSequence >= s.geometry.slotCount
      then s.(producer := PushDropping(x))
      else s.(producer := Writing(x, at, if Silent(x.packet) then FRAMES else AUDIO, 0))
    case PushDropping(x) =>
      s.(droppedFrames := s.droppedFrames + x.packet.frames, producer := PushIdle)
    case Writing(x, at, part, copied) =>
      if part == COUNT then
        s.(producedFrames := s.producedFrames + x.packet.frames, producer := Writing(x, at, PUBLISH, copied))
      else if part >= PUBLISH then
        s.(producerSequence := at + 1, producer := PushIdle, pushed := s.pushed + [x])
      else if part == AUDIO && copied < |x.audio| then
        WithSlot(s, at, Stored(SlotAt(s, at), x, at, part, copied)).(producer := Writing(x, at, AUDIO, copied + 1))
      else if part == AUDIO then
        s.(producer := Writing(x, at, FRAMES, copied))
      else
        WithSlot(s, at, Stored(SlotAt(s, at), x, at, part, copied)).(producer := Writing(x, at, part + 1, copied))
  }

  /** The slot after storing one part of a parcel, or one byte of its audio. */
  function Stored(slot: Slot, x: Parcel, at: nat, part: nat, k: nat): Slot {
    if part == AUDIO && k < |x.audio| && k < |slot.audio| then slot.(audio := slot.audio[k := x.audio[k]])
    else if part == FRAMES then slot.(packet := slot.packet.(frames := x.packet.frames))
    else if part == FLAGS then slot.(packet := slot.packet.(flags := x.packet.flags))
    else if part == DEVICE then slot.(packet := slot.packet.(devicePosition := x.packet.devicePosition))
    else if part == QPC then slot.(packet := slot.packet.(qpcPosition := x.packet.qpcPosition))
    else if part == SEQUENCE then slot.(sequence := at + 1)
    else slot
  }

  /** One step of pop(). */
  function ConsumerNext(s: State): State
    requires Shaped(s) && !s.consumer.PopIdle?
  {
    var g := s.geometry;
    match s.consumer
    case PopLoadingConsumer(span) =>
      s.(consumer := PopLoadingProducer(span, s.consumerSequence))
    case PopLoadingProducer(span, at) =>
      if at == s.producerSequence then s.(consumer := PopIdle)
      else if at > s.producerSequence || s.producerSequence - at > g.slotCount then s.(consumer := PopOutOfRange)
      else s.(consumer := Checking(span, at, SEQUENCE, Packet(0, 0, 0, 0)))
    case Checking(span, at, part, h) =>
      s.(consumer := Checked(g, SlotAt(s, at), span, at, part, h))
    case Copying(span, at, part, h, copied) =>
      if part == AUDIO && Silent(h) then
        s.(silenceFrames := s.silenceFrames + h.frames,
           consumer := Copying(span, at, COUNT, h, Zeros(Bytes(g, h.frames))))
      else if part == AUDIO && |copied| < Bytes(g, h.frames) && |copied| < g.slotBytes then
        s.(consumer := Copying(span, at, AUDIO, h, copied + [SlotAt(s, at).audio[|copied|]]))
      else if part == AUDIO then
        s.(consumer := Copying(span, at, COUNT, h, copied))
      else if part == COUNT then
        s.(consumedFrames := s.consumedFrames + h.frames, consumer := Copying(span, at, PUBLISH, h, copied))
      else
        s.(consumerSequence := at + 1, consumer := PopIdle, popped := s.popped + [Parcel(h, copied)])
    case PopTooSmall(_) =>
      s.(malformedPackets := s.malformedPackets + 1, consumer := PopIdle)
    case PopMalformed(at) =>
      s.(malformedPackets := s.malformedPackets + 1, consumerSequence := at + 1, consumer := PopIdle)
    case PopOutOfRange =>
      s.(malformedPackets := s.malformedPackets + 1, consumer := PopIdle)
  }

  /** Loading one header field and acting on it: sequence, frames, flags, then the two positions. */
  function Checked(g: Geometry, slot: Slot, span: nat, at: nat, part: nat, h: Packet): Consumer {
    if part == SEQUENCE then
      if slot.sequence != at + 1 then PopMalformed(at) else Checking(span, at, FRAMES, h)
    else if part == FRAMES then
      var frames := slot.packet.frames;
      if frames == 0 || frames > g.framesPerSlot then PopMalformed(at)
      else Checking(span, at, FLAGS, h.(frames := frames))
    else if part == FLAGS then
      if !KnownFlags(slot.packet.flags) then PopMalformed(at)
      else if span < Bytes(g, h.frames) then PopTooSmall(span)
      else Checking(span, at, DEVICE, h.(flags := slot.packet.flags))
    else if part == DEVICE then
      Checking(span, at, QPC, h.(devicePosition := slot.packet.devicePosition))
    else
      Copying(span, at, AUDIO, h.(qpcPosition := slot.packet.qpcPosition), [])
  }

  ghost predicate Step(s: State, a: Action, n: State) {
    && Shaped(s)
    && match a
       case CallPush(x) =>
         && s.producer.PushIdle?
         && n == s.(producer := if Acceptable(s.geometry, x) then PushLoadingProducer(x) else PushRejecting)
       case CallPop(span) =>
         && s.consumer.PopIdle?
         && n == s.(consumer := PopLoadingConsumer(span))
       case ProducerStep => !s.producer.PushIdle? && n == ProducerNext(s)
       case ConsumerStep => !s.consumer.PopIdle? && n == ConsumerNext(s)
  }

  ghost predicate Shaped(s: State) {
    && Sound(s.geometry)
    && |s.slots| == s.geometry.slotCount
    && forall k :: 0 <= k < |s.slots| ==> |s.slots[k].audio| == s.geometry.slotBytes
  }

  /** The slot holds the packet published under this sequence number. */
  ghost predicate Holds(slot: Slot, at: nat, x: Parcel) {
    && slot.sequence == at + 1
    && slot.packet == x.packet
    && (!Silent(x.packet) ==> x.audio <= slot.audio)
  }

  predicate Reading(c: Consumer) {
    c.Checking? || c.Copying?
  }

  ghost predicate CursorInv(s: State) {
    && Shaped(s)
    && s.consumerSequence == |s.popped| && s.producerSequence == |s.pushed|
    && s.consumerSequence <= s.producerSequence <= s.consumerSequence + s.geometry.slotCount
    && (forall k :: 0 <= k < |s.pushed| ==> Acceptable(s.geometry, s.pushed[k]))
  }

  ghost predicate QueueInv(s: State)
    requires CursorInv(s)
  {
    && (forall q :: s.consumerSequence <= q < s.producerSequence ==> Holds(SlotAt(s, q), q, s.pushed[q]))
    && (forall k :: 0 <= k < |s.popped| ==> s.popped[k] == Delivered(s.geometry, s.pushed[k]))
  }

  ghost predicate ProducerInv(s: State)
    requires CursorInv(s)
  {
    match s.producer
    case PushLoadingProducer(x) => Acceptable(s.geometry, x)
    case PushLoadingConsumer(x, at) => Acceptable(s.geometry, x) && at == s.producerSequence
    case Writing(x, at, part, copied) =>
      && Acceptable(s.geometry, x) && at == s.producerSequence
      && s.producerSequence < s.consumerSequence + s.geometry.slotCount
      && Progress(SlotAt(s, at), x, at, part, copied)
    case _ => true
  }

  /** How much of its parcel the producer has stored so far. */
  ghost predicate Progress(slot: Slot, x: Parcel, at: nat, part: nat, copied: nat) {
    && part <= PUBLISH && copied <= |x.audio| <= |slot.audio|
    && (part == AUDIO ==> !Silent(x.packet) && forall k :: 0 <= k < copied ==> slot.audio[k] == x.audio[k])
    && (part > AUDIO && !Silent(x.packet) ==> x.audio <= slot.audio)
    && (part > FRAMES ==> slot.packet.frames == x.packet.frames)
    && (part > FLAGS ==> slot.packet.flags == x.packet.flags)
    && (part > DEVICE ==> slot.packet.devicePosition == x.packet.devicePosition)
    && (part > QPC ==> slot.packet.qpcPosition == x.packet.qpcPosition)
    && (part > SEQUENCE ==> slot.sequence == at + 1)
  }

  ghost predicate ConsumerInv(s: State)
    requires CursorInv(s)
  {
    match s.consumer
    case PopLoadingProducer(_, at) => at == s.consumerSequence
    case Checking(span, at, part, h) =>
      at == s.consumerSequence < s.producerSequence && Loaded(h, part, s.pushed[at].packet)
    case Copying(span, at, part, h, copied) =>
      && (part == AUDIO || part == COUNT || part == PUBLISH)
      && at == s.consumerSequence < s.producerSequence && h == s.pushed[at].packet
      && (part == AUDIO && Silent(h) ==> copied == [])
      && (part == AUDIO && !Silent(h) ==> copied <= s.pushed[at].audio)
      && (part != AUDIO ==> Parcel(h, copied) == Delivered(s.geometry, s.pushed[at]))
    case PopTooSmall(span) => span < Bytes(s.geometry, s.geometry.framesPerSlot)
    case PopMalformed(_) => false
    case PopOutOfRange => false
    case _ => true
  }

  /** How much of the header the consumer has loaded so far. */
  ghost predicate Loaded(h: Packet, part: nat, p: Packet) {
    && FRAMES <= part <= SEQUENCE
    && (FRAMES < part < SEQUENCE ==> h.frames == p.frames)
    && (FLAGS < part < SEQUENCE ==> h.flags == p.flags)
    && (DEVICE < part < SEQUENCE ==> h.devicePosition == p.devicePosition)
  }

  ghost predicate FrameInv(s: State) {
    && s.producedFrames == SumFrames(s.pushed) +
                           (if s.producer.Writing? && s.producer.part >= PUBLISH then s.producer.parcel.packet.frames else 0)
    && s.consumedFrames == SumFrames(s.popped) +
                           (if s.consumer.Copying? && s.consumer.part >= PUBLISH then s.consumer.header.frames else 0)
  }

  ghost predicate Inv(s: State) {
    CursorInv(s) && QueueInv(s) && ProducerInv(s) && ConsumerInv(s) && FrameInv(s)
  }

  /** Fewer than slotCount apart, two sequence numbers never share a slot. */
  lemma DistinctSlots(p: nat, q: nat, n: nat)
    requires n > 0 && q < p < q + n
    ensures p % n != q % n
  {
    var d := p / n - q / n;
    assert p - q == d * n + (p % n - q % n);
    assert d >= 1 ==> d * n >= n;
    assert d <= 0 ==> d * n <= 0;
  }

  lemma BytesFit(g: Geometry, frames: nat)
    requires Sound(g) && frames <= g.framesPerSlot
    ensures Bytes(g, frames) <= Bytes(g, g.framesPerSlot) <= g.slotBytes
  {
    assert frames * g.bytesPerFrame <= g.framesPerSlot * g.bytesPerFrame;
  }

  /** Storing into the producer's slot touches none of the queued ones. */
  lemma {:induction false} StoreKeepsQueue(s: State, slot: Slot)
    requires CursorInv(s) && QueueInv(s) && s.producer.Writing? && s.producer.at == s.producerSequence
    requires s.producerSequence < s.consumerSequence + s.geometry.slotCount
    requires |slot.audio| == s.geometry.slotBytes
    ensures var n := WithSlot(s, s.producer.at, slot);
            Shaped(n) && SlotAt(n, s.producer.at) == slot && CursorInv(n) && QueueInv(n)
  {
    var n := WithSlot(s, s.producer.at, slot);
    forall q | s.consumerSequence <= q < s.producerSequence
      ensures Holds(SlotAt(n, q), q, s.pushed[q])
    {
      DistinctSlots(s.producer.at, q, s.geometry.slotCount);
    }
  }

  lemma {:induction false} StoredProgress(slot: Slot, x: Parcel, at: nat, part: nat, k: nat)
    requires Progress(slot, x, at, part, k) && part < COUNT
    ensures |Stored(slot, x, at, part, k).audio| == |slot.audio|
    ensures if part == AUDIO && k < |x.audio| then Progress(Stored(slot, x, at, part, k), x, at, AUDIO, k + 1)
            else Progress(Stored(slot, x, at, part, k), x, at, part + 1, k)
  {
  }

  lemma {:induction false} WritingHolds(s: State)
    requires Inv(s) && s.producer.Writing? && s.producer.part < COUNT
    ensures Inv(ProducerNext(s))
  {
    var p := s.producer;
    var slot := Stored(SlotAt(s, p.at), p.parcel, p.at, p.part, p.copied);
    StoredProgress(SlotAt(s, p.at), p.parcel, p.at, p.part, p.copied);
    StoreKeepsQueue(s, slot);
    var mid, n := WithSlot(s, p.at, slot), ProducerNext(s);
    assert mid.slots == n.slots;
    OtherThreadHolds(mid, n);
  }

  lemma {:induction false} PublishHolds(s: State)
    requires Inv(s) && s.producer.Writing? && s.producer.part >= PUBLISH
    ensures Inv(ProducerNext(s))
  {
    var n := ProducerNext(s);
    assert n.pushed[..|n.pushed| - 1] == s.pushed;
    forall q | n.consumerSequence <= q < n.producerSequence
      ensures Holds(SlotAt(n, q), q, n.pushed[q])
    {
      assert SlotAt(n, q) == SlotAt(s, q);
    }
    assert n.consumer == s.consumer;
    assert CursorInv(n) && QueueInv(n);
  }

  /** The shared queue is the same; only the positions of the two threads and counters differ. */
  ghost predicate SameQueue(s: State, n: State) {
    && n.geometry == s.geometry && n.slots == s.slots
    && n.producerSequence == s.producerSequence && n.consumerSequence == s.consumerSequence
    && n.pushed == s.pushed && n.popped == s.popped
  }

  lemma {:induction false} SameQueueHolds(s: State, n: State)
    requires CursorInv(s) && QueueInv(s) && SameQueue(s, n)
    ensures CursorInv(n) && QueueInv(n)
  {
    forall q | n.consumerSequence <= q < n.producerSequence
      ensures Holds(SlotAt(n, q), q, n.pushed[q])
    {
      assert SlotAt(n, q) == SlotAt(s, q);
    }
  }

  /** A step that leaves the queue and one thread alone keeps what is known about that thread. */
  lemma {:induction false} OtherThreadHolds(s: State, n: State)
    requires CursorInv(s) && QueueInv(s) && SameQueue(s, n)
    ensures CursorInv(n) && QueueInv(n)
    ensures ProducerInv(s) && n.producer == s.producer ==> ProducerInv(n)
    ensures ConsumerInv(s) && n.consumer == s.consumer ==> ConsumerInv(n)
  {
    SameQueueHolds(s, n);
    if s.producer.Writing? {
      assert SlotAt(n, s.producer.at) == SlotAt(s, s.producer.at);
    }
  }

  lemma {:induction false} CountingHolds(s: State)
    requires Inv(s) && s.producer.Writing? && s.producer.part == COUNT
    ensures Inv(ProducerNext(s))
  {
    OtherThreadHolds(s, ProducerNext(s));
  }

  lemma {:induction false} EnteringHolds(s: State)
    requires Inv(s) && !s.producer.PushIdle? && !s.producer.Writing?
    ensures Inv(ProducerNext(s))
  {
    var n := ProducerNext(s);
    OtherThreadHolds(s, n);
    if n.producer.Writing? {
      BytesFit(s.geometry, n.producer.parcel.packet.frames);
    }
  }

  lemma {:induction false} ProducerHolds(s: State)
    requires Inv(s) && !s.producer.PushIdle?
    ensures Inv(ProducerNext(s))
  {
    var p := s.producer;
    if !p.Writing? {
      EnteringHolds(s);
    } else if p.part < COUNT {
      WritingHolds(s);
    } else if p.part == COUNT {
      CountingHolds(s);
    } else {
      PublishHolds(s);
    }
  }

  lemma {:induction false} CheckingHolds(s: State)
    requires Inv(s) && s.consumer.Checking?
    ensures Inv(ConsumerNext(s))
  {
    var c, n := s.consumer, ConsumerNext(s);
    var x := s.pushed[c.at];
    assert Holds(SlotAt(s, c.at), c.at, x) && Acceptable(s.geometry, x);
    BytesFit(s.geometry, x.packet.frames);
    OtherThreadHolds(s, n);
  }

  lemma {:induction false} CopyingHolds(s: State)
    requires Inv(s) && s.consumer.Copying? && s.consumer.part <= COUNT
    ensures Inv(ConsumerNext(s))
  {
    var c, n := s.consumer, ConsumerNext(s);
    var x := s.pushed[c.at];
    assert Holds(SlotAt(s, c.at), c.at, x) && Acceptable(s.geometry, x);
    BytesFit(s.geometry, x.packet.frames);
    OtherThreadHolds(s, n);
    assert FrameInv(n);
    if c.part == AUDIO && !Silent(c.header) {
      assert |x.audio| == Bytes(s.geometry, c.header.frames) && x.audio <= SlotAt(s, c.at).audio;
      if |c.copied| < |x.audio| {
        assert c.copied + [SlotAt(s, c.at).audio[|c.copied|]] == x.audio[..|c.copied| + 1];
      }
    }
  }

  lemma {:induction false} AdvanceHolds(s: State)
    requires Inv(s) && s.consumer.Copying? && s.consumer.part > COUNT
    ensures Inv(ConsumerNext(s))
  {
    var n := ConsumerNext(s);
    assert n.popped[..|n.popped| - 1] == s.popped;
    forall q | n.consumerSequence <= q < n.producerSequence
      ensures Holds(SlotAt(n, q), q, n.pushed[q])
    {
      assert SlotAt(n, q) == SlotAt(s, q);
    }
    assert CursorInv(n) && QueueInv(n);
    assert n.producer == s.producer;
  }

  lemma {:induction false} ConsumerHolds(s: State)
    requires Inv(s) && !s.consumer.PopIdle?
    ensures Inv(ConsumerNext(s))
  {
    var c, n := s.consumer, ConsumerNext(s);
    if c.Checking? {
      CheckingHolds(s);
    } else if c.Copying? && c.part <= COUNT {
      CopyingHolds(s);
    } else if c.Copying? {
      AdvanceHolds(s);
    } else {
      OtherThreadHolds(s, n);
    }
  }

  ghost predicate Run(states: seq<State>, actions: seq<Action>) {
    && |states| == |actions| + 1
    && Init(states[0])
    && forall k :: 0 <= k < |actions| ==> Step(states[k], actions[k], states[k + 1])
  }

  lemma {:induction false} RunHolds(states: seq<State>, actions: seq<Action>, k: nat)
    requires Run(states, actions) && k < |states|
    ensures Inv(states[k])
  {
    if k > 0 {
      RunHolds(states, actions, k - 1);
      var s, n := states[k - 1], states[k];
      match actions[k - 1] {
        case CallPush(_) => SameQueueHolds(s, n);
        case CallPop(_) => SameQueueHolds(s, n);
        case ProducerStep => ProducerHolds(s);
        case ConsumerStep => ConsumerHolds(s);
      }
    }
  }

  /** FIFO delivery in every interleaving: the pops return exactly the pushed packets, in order and
      without loss or repetition, with zeros for the silent ones; the cursors never cross and never
      lie more than a ring apart. */
  lemma {:induction false} PopsReturnPushes(states: seq<State>, actions: seq<Action>, k: nat)
    requires Run(states, actions) && k < |states|
    ensures var s := states[k];
            && s.consumerSequence == |s.popped| && s.producerSequence == |s.pushed|
            && s.consumerSequence <= s.producerSequence <= s.consumerSequence + s.geometry.slotCount
            && forall i :: 0 <= i < |s.popped| ==> s.popped[i] == Delivered(s.geometry, s.pushed[i])
  {
    RunHolds(states, actions, k);
  }

  /** While the producer fills one slot and the consumer empties another, they are different slots:
      neither the audio nor the header being read is ever written. */
  lemma {:induction false} NeverWritesTheSlotBeingRead(states: seq<State>, actions: seq<Action>, k: nat)
    requires Run(states, actions) && k < |states|
    requires states[k].producer.Writing? && Reading(states[k].consumer)
    ensures var n := states[k].geometry.slotCount;
            n > 0 && states[k].producer.at % n != states[k].consumer.at % n
  {
    RunHolds(states, actions, k);
    DistinctSlots(states[k].producer.at, states[k].consumer.at, states[k].geometry.slotCount);
  }

  /** pop() never finds a malformed slot or impossible cursors, and with a span that holds a full
      slot it never reports an invalid packet at all. */
  lemma {:induction false} FullSpanNeverInvalid(states: seq<State>, actions: seq<Action>, k: nat)
    requires Run(states, actions) && k < |states|
    ensures var c := states[k].consumer; var g := states[k].geometry;
            && !c.PopMalformed? && !c.PopOutOfRange?
            && (c.PopTooSmall? ==> c.span < Bytes(g, g.framesPerSlot))
  {
    RunHolds(states, actions, k);
  }

  lemma {:induction false} SumSplits(xs: seq<Parcel>, k: nat)
    requires k <= |xs|
    ensures SumFrames(xs[..k]) <= SumFrames(xs)
  {
    if k < |xs| {
      assert xs[..|xs| - 1][..k] == xs[..k];
      SumSplits(xs[..|xs| - 1], k);
    } else {
      assert xs[..k] == xs;
    }
  }

  lemma {:induction false} DeliveredFrames(g: Geometry, xs: seq<Parcel>, ys: seq<Parcel>)
    requires |xs| == |ys| && forall i :: 0 <= i < |xs| ==> ys[i] == Delivered(g, xs[i])
    ensures SumFrames(xs) == SumFrames(ys)
  {
    if xs != [] {
      DeliveredFrames(g, xs[..|xs| - 1], ys[..|ys| - 1]);
    }
  }

  lemma {:induction false} QueuedLast(s: State, to: nat)
    requires CursorInv(s) && QueueInv(s) && s.consumerSequence < to <= s.producerSequence
    ensures QueuedFrom(s, s.consumerSequence, to) ==
            QueuedFrom(s, s.consumerSequence, to - 1) + s.pushed[to - 1].packet.frames
  {
    var slot := SlotAt(s, to - 1);
    assert Holds(slot, to - 1, s.pushed[to - 1]) && Acceptable(s.geometry, s.pushed[to - 1]);
  }

  lemma {:induction false} QueuedSums(s: State, to: nat)
    requires CursorInv(s) && QueueInv(s) && s.consumerSequence <= to <= s.producerSequence
    ensures SumFrames(s.pushed[..s.consumerSequence]) + QueuedFrom(s, s.consumerSequence, to) == SumFrames(s.pushed[..to])
  {
    hide QueueInv;
    if to > s.consumerSequence {
      QueuedSums(s, to - 1);
      assert s.pushed[..to][..to - 1] == s.pushed[..to - 1];
      QueuedLast(s, to);
    }
  }

  /** The shared counters never show more frames consumed than produced, and when both threads are
      idle their difference is exactly what queued_frames() reports. */
  lemma {:induction false} CountersConserveFrames(states: seq<State>, actions: seq<Action>, k: nat)
    requires Run(states, actions) && k < |states|
    ensures var s := states[k];
            && s.geometry.slotCount > 0 && |s.slots| == s.geometry.slotCount
            && s.consumedFrames <= s.producedFrames
            && (s.producer.PushIdle? && s.consumer.PopIdle? ==>
                  s.producedFrames - s.consumedFrames == QueuedFrames(s))
  {
    RunHolds(states, actions, k);
    var s := states[k];
    var c := s.consumerSequence;
    DeliveredFrames(s.geometry, s.pushed[..c], s.popped);
    SumSplits(s.pushed, c);
    if s.consumer.Copying? {
      assert s.pushed[..c + 1][..c] == s.pushed[..c];
      SumSplits(s.pushed, c + 1);
    }
    if s.producer.PushIdle? && s.consumer.PopIdle? {
      QueuedSums(s, s.producerSequence);
      assert s.pushed[..s.producerSequence] == s.pushed;
    }
  }
}
