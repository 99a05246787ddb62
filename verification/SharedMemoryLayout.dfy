/** The layout of the shared memory between the engine and a Virtual ASIO client: its calculation in
    checked 64-bit arithmetic, and the validation of a header. */
module SharedMemoryLayout {
  import opened Basics

  const MAGIC: u32 := 0x4D524153
  const ENDIAN_TAG: u32 := 0x0102_0304
  const ALIGNMENT: nat := 64
  const HEADER_BYTES: nat := 256
  const CONTROL_BYTES: nat := 128
  const BLOCK_HEADER_BYTES: nat := 64
  const MAX_CHANNELS: nat := 256
  const MAX_CAPACITY: nat := 64
  const MAX_BYTES: nat := 0x1000_0000

  datatype Format = Format(sampleRate: u32, frames: u32, inputs: u32, outputs: u32)

  datatype Identity = Identity(
    generation: u64,
    owner: u32,
    client: u32,
    serverNonceLow: u64,
    serverNonceHigh: u64,
    clientNonceLow: u64,
    clientNonceHigh: u64)

  /** Every field of the header that headers_equal() compares one by one, but the identity, the format and
      the offsets, which are grouped. */
  datatype Header = Header(
    magic: u32,
    protocolMajor: u32,
    protocolMinor: u32,
    headerBytes: u32,
    endianTag: u32,
    featureBits: u32,
    state: u32,
    sampleFormat: u32,
    format: Format,
    capacity: u32,
    identity: Identity,
    reserved32: u32,
    offsets: Offsets,
    totalBytes: u64,
    reserved: seq<u64>)

  datatype Offsets = Offsets(
    inputControl: u64,
    inputSlots: u64,
    inputStride: u64,
    outputControl: u64,
    outputSlots: u64,
    outputStride: u64)

  datatype Queue = Queue(control: u64, slots: u64, stride: u64, end: u64, channels: u32, samples: u32)

  datatype Layout = Layout(header: Header, input: Queue, output: Queue)

  datatype Error =
    | InvalidFormat | InvalidCapacity | InvalidIdentity | LayoutTooLarge
    | InvalidHeader | UnsupportedProtocol | MappingTruncated

  datatype Result = Success(layout: Layout) | Failure(error: Error)

  function AddChecked(left: u64, right: u64): Option<u64> {
    if right > U64_MAX - left then None else Some(left + right)
  }

  lemma Fits(left: nat, right: nat)
    requires left > 0
    ensures right > U64_MAX / left <==> left * right > U64_MAX
  {
    assert U64_MAX == (U64_MAX / left) * left + U64_MAX % left;
    if right > U64_MAX / left {
      assert right * left >= (U64_MAX / left + 1) * left;
    } else {
      assert right * left <= (U64_MAX / left) * left;
    }
  }

  function MultiplyChecked(left: u64, right: u64): (r: Option<u64>)
    ensures r == if left * right <= U64_MAX then Some(left * right) else None
  {
    if left != 0 then
      Fits(left, right);
      if right > U64_MAX / left then None else Some(left * right)
    else Some(0)
  }

  /** Rounds up to the alignment. */
  function AlignChecked(value: u64): Option<u64> {
    match AddChecked(value, ALIGNMENT - 1)
    case None => None
    case Some(expanded) => Some(expanded - expanded % ALIGNMENT)
  }

  function BuildQueue(start: u64, channels: u32, frames: u32, capacity: u32): Option<Queue> {
    if channels == 0 then Some(Queue(0, 0, 0, start, 0, 0))
    else match MultiplyChecked(channels, frames)
      case None => None
      case Some(samples) =>
        if samples > U32_MAX then None
        else match AddChecked(start, CONTROL_BYTES)
          case None => None
          case Some(slots) => BuildSlots(start, slots, channels, samples, capacity)
  }

  function BuildSlots(start: u64, slots: u64, channels: u32, samples: u32, capacity: u32): Option<Queue> {
    match MultiplyChecked(samples, 4)
    case None => None
    case Some(sampleBytes) =>
      match AddChecked(BLOCK_HEADER_BYTES, sampleBytes)
      case None => None
      case Some(rawStride) =>
        match AlignChecked(rawStride)
        case None => None
        case Some(stride) =>
          match MultiplyChecked(stride, capacity)
          case None => None
          case Some(slotsBytes) =>
            match AddChecked(slots, slotsBytes)
            case None => None
            case Some(end) => Some(Queue(start, slots, stride, end, channels, samples))
  }

  predicate FormatInRange(f: Format) {
    && f.sampleRate != 0 && 0 < f.frames <= MAX_FRAMES_PER_BLOCK
    && (f.inputs != 0 || f.outputs != 0) && f.inputs <= MAX_CHANNELS && f.outputs <= MAX_CHANNELS
  }

  predicate CapacityInRange(capacity: u32) {
    0 < capacity <= MAX_CAPACITY
  }

  predicate IdentityComplete(i: Identity) {
    && i.generation != 0 && i.owner != 0 && i.client != 0
    && (i.serverNonceLow != 0 || i.serverNonceHigh != 0) && (i.clientNonceLow != 0 || i.clientNonceHigh != 0)
  }

  /** calculate_virtual_asio_shared_memory_layout() */
  function Calculate(f: Format, capacity: u32, identity: Identity): Result {
    if !FormatInRange(f) then Failure(InvalidFormat)
    else if !CapacityInRange(capacity) then Failure(InvalidCapacity)
    else if !IdentityComplete(identity) then Failure(InvalidIdentity)
    else match BuildQueue(HEADER_BYTES, f.inputs, f.frames, capacity)
      case None => Failure(LayoutTooLarge)
      case Some(input) =>
        match BuildQueue(input.end, f.outputs, f.frames, capacity)
        case None => Failure(LayoutTooLarge)
        case Some(output) =>
          match AlignChecked(output.end)
          case None => Failure(LayoutTooLarge)
          case Some(total) =>
            if total > MAX_BYTES then Failure(LayoutTooLarge)
            else Success(Layout(NewHeader(f, capacity, identity, input, output, total), input, output))
  }

  function NewHeader(f: Format, capacity: u32, identity: Identity, input: Queue, output: Queue, total: u64): Header {
    Header(MAGIC, 1, 0, HEADER_BYTES, ENDIAN_TAG, 0, 1, 1, f, capacity, identity, 0,
           Offsets(input.control, input.slots, input.stride, output.control, output.slots, output.stride),
           total, [0, 0, 0, 0, 0, 0, 0, 0, 0, 0, 0, 0])
  }

  /** Two headers that differ in their state at most. */
  predicate SameButState(a: Header, b: Header) {
    a == b.(state := a.state)
  }

  method HeadersEqual(left: Header, right: Header) returns (equal: bool)
    requires |left.reserved| == |right.reserved| == 12
    ensures equal == SameButState(left, right)
  {
    for k := 0 to 12
      invariant left.reserved[..k] == right.reserved[..k]
    {
      if left.reserved[k] != right.reserved[k] {
        return false;
      }
    }
    assert left.reserved[..12] == left.reserved && right.reserved[..12] == right.reserved;
    return && left.magic == right.magic && left.protocolMajor == right.protocolMajor
           && left.protocolMinor == right.protocolMinor && left.headerBytes == right.headerBytes
           && left.endianTag == right.endianTag && left.featureBits == right.featureBits
           && left.sampleFormat == right.sampleFormat && left.format == right.format
           && left.capacity == right.capacity && left.identity == right.identity
           && left.reserved32 == right.reserved32 && left.offsets == right.offsets
           && left.totalBytes == right.totalBytes;
  }

  predicate KnownState(state: u32) {
    1 <= state <= 4
  }

  /** A header of this protocol, whatever it describes. */
  predicate WellKnown(h: Header) {
    && h.magic == MAGIC && h.headerBytes == HEADER_BYTES && h.endianTag == ENDIAN_TAG
    && h.featureBits == 0 && h.reserved32 == 0 && h.sampleFormat == 1
  }

  /** validate_virtual_asio_shared_memory_header() */
  method Validate(h: Header, mappedBytes: u64) returns (result: Result)
    requires |h.reserved| == 12
    ensures result == Validated(h, mappedBytes)
  {
    if !WellKnown(h) {
      return Failure(InvalidHeader);
    }
    if h.protocolMajor != 1 || h.protocolMinor > 0 {
      return Failure(UnsupportedProtocol);
    }
    if !KnownState(h.state) {
      return Failure(InvalidHeader);
    }
    var calculated := Calculate(h.format, h.capacity, h.identity);
    if calculated.Failure? {
      return Failure(InvalidHeader);
    }
    var equal := HeadersEqual(h, calculated.layout.header);
    if !equal {
      return Failure(InvalidHeader);
    }
    if h.totalBytes > mappedBytes {
      return Failure(MappingTruncated);
    }
    return calculated;
  }

  function Validated(h: Header, mappedBytes: u64): Result {
    if !WellKnown(h) then Failure(InvalidHeader)
    else if h.protocolMajor != 1 || h.protocolMinor > 0 then Failure(UnsupportedProtocol)
    else if !KnownState(h.state) then Failure(InvalidHeader)
    else
      var calculated := Calculate(h.format, h.capacity, h.identity);
      if calculated.Failure? || !SameButState(h, calculated.layout.header) then Failure(InvalidHeader)
      else if h.totalBytes > mappedBytes then Failure(MappingTruncated)
      else calculated
  }

  // The layout in closed form.

  function RoundUp(n: nat): nat {
    n + 63 - (n + 63) % 64
  }

  function Stride(channels: nat, frames: nat): nat {
    RoundUp(BLOCK_HEADER_BYTES + 4 * (channels * frames))
  }

  function QueueBytes(channels: nat, frames: nat, capacity: nat): nat {
    if channels == 0 then 0 else CONTROL_BYTES + Stride(channels, frames) * capacity
  }

  function TotalBytes(f: Format, capacity: nat): nat {
    HEADER_BYTES + QueueBytes(f.inputs, f.frames, capacity) + QueueBytes(f.outputs, f.frames, capacity)
  }

  lemma ProductAtMost(a: nat, b: nat, most: nat, more: nat)
    requires a <= most && b <= more
    ensures a * b <= most * more
  {
    assert a * b <= most * b <= most * more;
  }

  lemma AlignedSum(a: nat, b: nat)
    requires a % 64 == 0 && b % 64 == 0
    ensures (a + b) % 64 == 0
  {
  }

  lemma AlignedProduct(a: nat, k: nat)
    requires a % 64 == 0
    ensures (a * k) % 64 == 0
  {
    var q := a / 64;
    assert a * k == 64 * (q * k);
  }

  const MAX_SAMPLES: nat := 0x20_0000
  const MAX_STRIDE: nat := 0x80_0080

  lemma StrideInRange(channels: nat, frames: nat)
    requires channels <= MAX_CHANNELS && frames <= MAX_FRAMES_PER_BLOCK
    ensures channels * frames <= MAX_SAMPLES
    ensures BLOCK_HEADER_BYTES + 4 * (channels * frames) <= Stride(channels, frames) <= MAX_STRIDE
    ensures Stride(channels, frames) % 64 == 0
  {
    ProductAtMost(channels, frames, MAX_CHANNELS, MAX_FRAMES_PER_BLOCK);
  }

  lemma QueueInRange(channels: nat, frames: nat, capacity: nat)
    requires channels <= MAX_CHANNELS && frames <= MAX_FRAMES_PER_BLOCK && capacity <= MAX_CAPACITY
    ensures Stride(channels, frames) * capacity <= 0x2000_2000
    ensures QueueBytes(channels, frames, capacity) <= 0x2000_2080 && QueueBytes(channels, frames, capacity) % 64 == 0
  {
    StrideInRange(channels, frames);
    var stride := Stride(channels, frames);
    SlotsInRange(stride, capacity);
    AlignedSum(CONTROL_BYTES, stride * capacity);
  }

  lemma SlotsInRange(stride: nat, capacity: nat)
    requires stride <= MAX_STRIDE && capacity <= MAX_CAPACITY && stride % 64 == 0
    ensures stride * capacity <= 0x2000_2000 && (stride * capacity) % 64 == 0
  {
    ProductAtMost(stride, capacity, MAX_STRIDE, MAX_CAPACITY);
    AlignedProduct(stride, capacity);
  }

  /** What a queue that starts at `start` must look like. */
  predicate Fills(q: Queue, start: nat, channels: nat, frames: nat, capacity: nat) {
    && q.end == start + QueueBytes(channels, frames, capacity) && q.channels == channels
    && if channels == 0 then q.control == q.slots == q.stride == q.samples == 0
       else && q.control == start && q.slots == start + CONTROL_BYTES && q.stride == Stride(channels, frames)
            && q.samples == channels * frames
  }

  lemma SlotsAreBuilt(start: u64, slots: u64, channels: u32, samples: u32, capacity: u32)
    requires slots <= 0x8000_0000 && samples <= MAX_SAMPLES
    requires RoundUp(BLOCK_HEADER_BYTES + 4 * samples) * capacity <= 0x2000_2000
    ensures var q := BuildSlots(start, slots, channels, samples, capacity);
            && q.Some? && q.value.control == start && q.value.slots == slots && q.value.channels == channels
            && q.value.samples == samples && q.value.stride == RoundUp(BLOCK_HEADER_BYTES + 4 * samples)
            && q.value.end == slots + RoundUp(BLOCK_HEADER_BYTES + 4 * samples) * capacity
  {
  }

  /** In range no sum, product or rounding overflows. */
  lemma QueueIsBuilt(start: u64, channels: u32, frames: u32, capacity: u32)
    requires start <= 0x4000_0000
    requires channels <= MAX_CHANNELS && frames <= MAX_FRAMES_PER_BLOCK && capacity <= MAX_CAPACITY
    ensures var q := BuildQueue(start, channels, frames, capacity);
            q.Some? && Fills(q.value, start, channels, frames, capacity)
  {
    if channels > 0 {
      StrideInRange(channels, frames);
      QueueInRange(channels, frames, capacity);
      SlotsAreBuilt(start, start + CONTROL_BYTES, channels, channels * frames, capacity);
    }
  }

  /** Once format, capacity and identity are in range, only the limit of 256 MiB can refuse a layout. */
  lemma OnlyTheLimitRefuses(f: Format, capacity: u32, identity: Identity)
    requires FormatInRange(f) && CapacityInRange(capacity) && IdentityComplete(identity)
    ensures Calculate(f, capacity, identity).Success? <==> TotalBytes(f, capacity) <= MAX_BYTES
    ensures Calculate(f, capacity, identity).Success? ==>
              Calculate(f, capacity, identity).layout.header.totalBytes == TotalBytes(f, capacity)
    ensures Calculate(f, capacity, identity).Failure? ==> Calculate(f, capacity, identity).error == LayoutTooLarge
  {
    QueuesAreBuilt(f, capacity);
    var input := BuildQueue(HEADER_BYTES, f.inputs, f.frames, capacity).value;
    AlignedEnd(BuildQueue(input.end, f.outputs, f.frames, capacity).value.end, TotalBytes(f, capacity));
  }

  lemma AlignedEnd(end: u64, total: nat)
    requires end == total <= 0x8000_0000 && total % 64 == 0
    ensures AlignChecked(end) == Some(end)
  {
  }

  lemma QueuesAreBuilt(f: Format, capacity: u32)
    requires FormatInRange(f) && CapacityInRange(capacity)
    ensures var input := BuildQueue(HEADER_BYTES, f.inputs, f.frames, capacity);
            && input.Some? && Fills(input.value, HEADER_BYTES, f.inputs, f.frames, capacity)
            && input.value.end <= 0x4000_0000 && input.value.end % 64 == 0
            && var output := BuildQueue(input.value.end, f.outputs, f.frames, capacity);
            && output.Some? && Fills(output.value, input.value.end, f.outputs, f.frames, capacity)
            && output.value.end == TotalBytes(f, capacity) <= 0x8000_0000 && TotalBytes(f, capacity) % 64 == 0
  {
    QueueInRange(f.inputs, f.frames, capacity);
    QueueInRange(f.outputs, f.frames, capacity);
    QueueIsBuilt(HEADER_BYTES, f.inputs, f.frames, capacity);
    var input := BuildQueue(HEADER_BYTES, f.inputs, f.frames, capacity).value;
    var bytes := QueueBytes(f.inputs, f.frames, capacity);
    assert input.end == HEADER_BYTES + bytes;
    AlignedSum(HEADER_BYTES, bytes);
    QueueIsBuilt(input.end, f.outputs, f.frames, capacity);
    AlignedSum(input.end, QueueBytes(f.outputs, f.frames, capacity));
  }

  /** Every header the calculation produces validates, in each of the four states, in any mapping that is
      large enough; the validation finds the same layout. */
  lemma CalculatedValidates(f: Format, capacity: u32, identity: Identity, state: u32, mappedBytes: u64)
    requires Calculate(f, capacity, identity).Success? && KnownState(state)
    ensures var layout := Calculate(f, capacity, identity).layout;
            Validated(layout.header.(state := state), mappedBytes) ==
            if layout.header.totalBytes <= mappedBytes then Success(layout) else Failure(MappingTruncated)
  {
  }

  // The regions of a valid layout.

  datatype Region = Region(start: nat, end: nat)

  /** The control block of a queue and its slots, in order; nothing for an absent queue. */
  function QueueRegions(q: Queue, capacity: nat): seq<Region> {
    if q.channels == 0 then []
    else [Region(q.control, q.control + CONTROL_BYTES)]
         + SlotRegions(q.slots, q.stride, capacity)
  }

  function Regions(l: Layout): seq<Region> {
    [Region(0, HEADER_BYTES)] + QueueRegions(l.input, l.header.capacity) + QueueRegions(l.output, l.header.capacity)
  }

  /** Aligned regions of positive size, one behind the other, within the bounds. */
  ghost predicate Arranged(regions: seq<Region>, from: nat, to: nat) {
    && (forall k :: 0 <= k < |regions| ==>
          from <= regions[k].start < regions[k].end <= to && regions[k].start % 64 == 0)
    && (forall j, k :: 0 <= j < k < |regions| ==> regions[j].end <= regions[k].start)
  }

  lemma ArrangedAppend(a: seq<Region>, b: seq<Region>, from: nat, middle: nat, to: nat)
    requires from <= middle <= to && Arranged(a, from, middle) && Arranged(b, middle, to)
    ensures Arranged(a + b, from, to)
  {
  }

  /** The slots of a queue, `stride` bytes apart. */
  function SlotRegions(slots: nat, stride: nat, capacity: nat): (r: seq<Region>)
    ensures |r| == capacity
    ensures forall k :: 0 <= k < capacity ==> r[k] == SlotRegion(slots, stride, k)
  {
    seq(capacity, k requires 0 <= k < capacity => SlotRegion(slots, stride, k))
  }

  function SlotRegion(slots: nat, stride: nat, k: nat): Region {
    Region(slots + k * stride, slots + k * stride + stride)
  }

  lemma SlotInside(slots: nat, stride: nat, k: nat, capacity: nat)
    requires slots % 64 == 0 && stride % 64 == 0 && stride > 0 && k < capacity
    ensures var r := SlotRegion(slots, stride, k);
            slots <= r.start < r.end <= slots + stride * capacity && r.start % 64 == 0
  {
    AlignedProduct(stride, k);
    AlignedSum(slots, k * stride);
    ProductAtMost(k + 1, stride, capacity, stride);
  }

  lemma SlotsApart(slots: nat, stride: nat, j: nat, k: nat)
    requires j < k
    ensures SlotRegion(slots, stride, j).end <= SlotRegion(slots, stride, k).start
  {
    ProductAtMost(j + 1, stride, k, stride);
  }

  lemma SlotsArranged(slots: nat, stride: nat, capacity: nat)
    requires slots % 64 == 0 && stride % 64 == 0 && stride > 0
    ensures Arranged(SlotRegions(slots, stride, capacity), slots, slots + stride * capacity)
  {
    var to := slots + stride * capacity;
    var regions := SlotRegions(slots, stride, capacity);
    forall k | 0 <= k < capacity
      ensures slots <= regions[k].start < regions[k].end <= to && regions[k].start % 64 == 0
    {
      SlotInside(slots, stride, k, capacity);
    }
    forall j, k | 0 <= j < k < capacity ensures regions[j].end <= regions[k].start {
      SlotsApart(slots, stride, j, k);
    }
  }

  lemma QueueArranged(q: Queue, start: nat, channels: nat, frames: nat, capacity: nat)
    requires Fills(q, start, channels, frames, capacity) && start % 64 == 0
    requires channels <= MAX_CHANNELS && frames <= MAX_FRAMES_PER_BLOCK && capacity <= MAX_CAPACITY
    ensures Arranged(QueueRegions(q, capacity), start, q.end) && start <= q.end
    ensures channels > 0 ==> q.stride >= BLOCK_HEADER_BYTES + 4 * (channels * frames)
  {
    StrideInRange(channels, frames);
    if channels > 0 {
      SlotsArranged(q.slots, q.stride, capacity);
      QueueInRange(channels, frames, capacity);
      ArrangedAppend([Region(q.control, q.control + CONTROL_BYTES)], SlotRegions(q.slots, q.stride, capacity),
                     start, q.slots, q.end);
    }
  }

  lemma ValidatedIsCalculated(h: Header, mappedBytes: u64)
    requires Validated(h, mappedBytes).Success?
    ensures var l := Validated(h, mappedBytes).layout;
            && Calculate(h.format, h.capacity, h.identity) == Success(l)
            && h == l.header.(state := h.state) && h.totalBytes <= mappedBytes
  {
  }

  lemma CalculatedParts(f: Format, capacity: u32, identity: Identity)
    requires Calculate(f, capacity, identity).Success?
    ensures var l := Calculate(f, capacity, identity).layout;
            && FormatInRange(f) && CapacityInRange(capacity) && l.header.capacity == capacity && l.header.format == f
            && Fills(l.input, HEADER_BYTES, f.inputs, f.frames, capacity)
            && Fills(l.output, l.input.end, f.outputs, f.frames, capacity)
            && l.input.end % 64 == 0 && l.output.end == l.header.totalBytes <= MAX_BYTES
            && l.header.offsets == Offsets(l.input.control, l.input.slots, l.input.stride,
                                           l.output.control, l.output.slots, l.output.stride)
  {
    QueuesAreBuilt(f, capacity);
    OnlyTheLimitRefuses(f, capacity, identity);
  }

  lemma LayoutArranged(l: Layout)
    requires var f, capacity := l.header.format, l.header.capacity;
             && FormatInRange(f) && CapacityInRange(capacity)
             && Fills(l.input, HEADER_BYTES, f.inputs, f.frames, capacity)
             && Fills(l.output, l.input.end, f.outputs, f.frames, capacity)
             && l.input.end % 64 == 0
    ensures Arranged(Regions(l), 0, l.output.end)
    ensures HasRoom(l.input, l.header.format.inputs, l.header.format.frames)
    ensures HasRoom(l.output, l.header.format.outputs, l.header.format.frames)
  {
    var f, capacity := l.header.format, l.header.capacity;
    QueueArranged(l.input, HEADER_BYTES, f.inputs, f.frames, capacity);
    QueueArranged(l.output, l.input.end, f.outputs, f.frames, capacity);
    var header := [Region(0, HEADER_BYTES)];
    ArrangedAppend(header, QueueRegions(l.input, capacity), 0, HEADER_BYTES, l.input.end);
    ArrangedAppend(header + QueueRegions(l.input, capacity), QueueRegions(l.output, capacity), 0, l.input.end, l.output.end);
  }

  /** A slot of the queue holds a block header and all samples of a block. */
  predicate HasRoom(q: Queue, channels: nat, frames: nat) {
    channels > 0 ==> q.stride >= BLOCK_HEADER_BYTES + 4 * (channels * frames)
  }

  /** In every header that validates, the header, both control blocks and all slots are aligned, pairwise
      disjoint and inside the mapping, and every slot has room for its block. */
  lemma ValidatedIsArranged(h: Header, mappedBytes: u64)
    requires Validated(h, mappedBytes).Success?
    ensures var l := Validated(h, mappedBytes).layout;
            && Arranged(Regions(l), 0, h.totalBytes) && h.totalBytes <= mappedBytes && h.totalBytes <= MAX_BYTES
            && h.offsets == Offsets(l.input.control, l.input.slots, l.input.stride,
                                    l.output.control, l.output.slots, l.output.stride)
            && HasRoom(l.input, h.format.inputs, h.format.frames) && HasRoom(l.output, h.format.outputs, h.format.frames)
  {
    ValidatedIsCalculated(h, mappedBytes);
    CalculatedParts(h.format, h.capacity, h.identity);
    LayoutArranged(Validated(h, mappedBytes).layout);
  }
}
