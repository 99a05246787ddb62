/** The seqlock of WasapiRealtimeErrorChannel: one writer, any number of readers, one atomic load or
    store per step. All of its atomics are sequentially consistent. The 64-bit sequence is an
    unbounded natural. */
module ErrorChannel {
  import opened Basics
  import opened RealtimeErrors

  type Reader = nat

  datatype Writer =
    | Resting
    | StoringRecords(batch: Batch, next: nat)
    | StoringMetadata(batch: Batch)
    | StoringSequence(batch: Batch)

  /** A reader inside snapshot(): `since` is the number of batches published when the call began. */
  datatype Phase =
    | Done
    | LoadingBefore(since: nat)
    | LoadingRecords(since: nat, before: nat, loaded: seq<u64>)
    | LoadingMetadata(since: nat, before: nat, loaded: seq<u64>)
    | LoadingAfter(since: nat, before: nat, loaded: seq<u64>, metadata: u64)

  /** One finished snapshot: what it returned, half of the sequence it read twice, and when it began
      and ended, counted in batches published. */
  datatype Snapshot = Snapshot(batch: Batch, version: nat, began: nat, ended: nat)

  /** `published` is the history: the initial empty batch, then every completed publish(). */
  datatype State = State(
    sequence: nat,
    records: seq<u64>,
    metadata: u64,
    writer: Writer,
    readers: map<Reader, Phase>,
    published: seq<Batch>,
    returned: map<Reader, seq<Snapshot>>)

  datatype Action =
    | BeginPublish(batch: Batch)
    | StoreRecord
    | StoreMetadata
    | EndPublish
    | BeginSnapshot(reader: Reader)
    | LoadBefore(reader: Reader)
    | LoadRecord(reader: Reader)
    | LoadMetadata(reader: Reader)
    | LoadAfter(reader: Reader)

  predicate WellFormed(b: Batch) {
    |b.records| == CAPACITY
  }

  /** What publish() stores of a batch: its count is clamped to the capacity. */
  function Clamped(b: Batch): Batch {
    b.(count := Min(b.count, CAPACITY))
  }

  function Words(b: Batch): (r: seq<u64>)
    ensures |r| == |b.records| && forall k :: 0 <= k < |r| ==> r[k] == Pack(b.records[k])
  {
    seq(|b.records|, k requires 0 <= k < |b.records| => Pack(b.records[k]))
  }

  function Metadata(b: Batch): u64 {
    PackMetadata(Clamped(b).count, b.overflowCount)
  }

  /** What snapshot() rebuilds from the words it loaded. */
  function Rebuilt(words: seq<u64>, metadata: u64): Batch {
    Batch(seq(|words|, k requires 0 <= k < |words| => Unpack(words[k])),
          MetadataCount(metadata), MetadataOverflow(metadata))
  }

  lemma {:induction false} RebuildsClamped(b: Batch)
    ensures Rebuilt(Words(b), Metadata(b)) == Clamped(b)
  {
    MetadataUnpacks(Clamped(b).count, b.overflowCount);
    forall k | 0 <= k < |b.records|
      ensures Unpack(Words(b)[k]) == b.records[k]
    {
      PackIsBijective(b.records[k], 0);
    }
  }

  /** The batch a channel holds before anything is published: no records and no count. */
  predicate IsEmpty(b: Batch) {
    && |b.records| == CAPACITY && (forall k :: 0 <= k < CAPACITY ==> b.records[k] == EMPTY_RECORD)
    && b.count == 0 && b.overflowCount == 0
  }

  ghost predicate Init(s: State) {
    && s.sequence == 0
    && |s.published| == 1 && IsEmpty(s.published[0])
    && |s.records| == CAPACITY && (forall k :: 0 <= k < CAPACITY ==> s.records[k] == 0)
    && s.metadata == 0
    && s.writer == Resting
    && s.readers.Keys == s.returned.Keys
    && forall r :: r in s.readers ==> s.readers[r].Done? && |s.returned[r]| == 0
  }

  ghost predicate Step(s: State, a: Action, n: State) {
    match a
    case BeginPublish(b) =>
      && s.writer.Resting? && WellFormed(b)
      && n == s.(sequence := s.sequence + 1, writer := StoringRecords(b, 0))
    case StoreRecord =>
      && s.writer.StoringRecords? && s.writer.next < |s.records| && s.writer.next < |s.writer.batch.records|
      && var k := s.writer.next;
         n == s.(records := s.records[k := Pack(s.writer.batch.records[k])],
                 writer := if k + 1 < CAPACITY then StoringRecords(s.writer.batch, k + 1)
                           else StoringMetadata(s.writer.batch))
    case StoreMetadata =>
      && s.writer.StoringMetadata?
      && n == s.(metadata := Metadata(s.writer.batch), writer := StoringSequence(s.writer.batch))
    case EndPublish =>
      && s.writer.StoringSequence?
      && n == s.(sequence := s.sequence + 1, writer := Resting, published := s.published + [s.writer.batch])
    case BeginSnapshot(r) =>
      && r in s.readers && s.readers[r].Done? && |s.published| > 0
      && n == s.(readers := s.readers[r := LoadingBefore(|s.published| - 1)])
    case LoadBefore(r) =>
      && r in s.readers && s.readers[r].LoadingBefore?
      && n == if s.sequence % 2 != 0 then s
              else s.(readers := s.readers[r := LoadingRecords(s.readers[r].since, s.sequence, [])])
    case LoadRecord(r) =>
      && r in s.readers && s.readers[r].LoadingRecords?
      && var p := s.readers[r];
         && |p.loaded| < |s.records|
         && var loaded := p.loaded + [s.records[|p.loaded|]];
            n == s.(readers := s.readers[r := if |loaded| < CAPACITY then LoadingRecords(p.since, p.before, loaded)
                                              else LoadingMetadata(p.since, p.before, loaded)])
    case LoadMetadata(r) =>
      && r in s.readers && s.readers[r].LoadingMetadata?
      && var p := s.readers[r];
         n == s.(readers := s.readers[r := LoadingAfter(p.since, p.before, p.loaded, s.metadata)])
    case LoadAfter(r) =>
      && r in s.readers && s.readers[r].LoadingAfter? && r in s.returned && |s.published| > 0
      && var p := s.readers[r];
         n == if s.sequence == p.before
              then s.(readers := s.readers[r := Done],
                      returned := s.returned[r := s.returned[r] +
                                                  [Snapshot(Rebuilt(p.loaded, p.metadata), p.before / 2, p.since, |s.published| - 1)]])
              else s.(readers := s.readers[r := LoadingBefore(p.since)])
  }

  /** Shared words while the writer rests, and how far it has got while it writes. */
  ghost predicate WriterInv(s: State) {
    && s.published != []
    && |s.records| == CAPACITY
    && (forall v :: 0 <= v < |s.published| ==> WellFormed(s.published[v]))
    && var last := s.published[|s.published| - 1];
       match s.writer
       case Resting =>
         s.sequence == 2 * (|s.published| - 1) && s.records == Words(last) && s.metadata == Metadata(last)
       case StoringRecords(b, k) =>
         && s.sequence == 2 * |s.published| - 1 && WellFormed(b) && k < CAPACITY
         && (forall i :: 0 <= i < k ==> s.records[i] == Words(b)[i])
       case StoringMetadata(b) =>
         s.sequence == 2 * |s.published| - 1 && WellFormed(b) && s.records == Words(b)
       case StoringSequence(b) =>
         && s.sequence == 2 * |s.published| - 1 && WellFormed(b) && s.records == Words(b)
         && s.metadata == Metadata(b)
  }

  /** A reader that saw an even sequence holds words of that publication, unless the sequence has
      moved on, in which case it will retry. */
  ghost predicate PhaseInv(s: State, p: Phase) {
    match p
    case Done => true
    case LoadingBefore(since) => since < |s.published|
    case LoadingRecords(since, before, loaded) =>
      && Stamped(s, since, before) && |loaded| < CAPACITY
      && (before == s.sequence ==> loaded <= Words(s.published[before / 2]))
    case LoadingMetadata(since, before, loaded) =>
      && Stamped(s, since, before)
      && (before == s.sequence ==> loaded == Words(s.published[before / 2]))
    case LoadingAfter(since, before, loaded, metadata) =>
      && Stamped(s, since, before)
      && (before == s.sequence ==>
            loaded == Words(s.published[before / 2]) && metadata == Metadata(s.published[before / 2]))
  }

  predicate Stamped(s: State, since: nat, before: nat) {
    since <= before / 2 < |s.published| && before % 2 == 0 && before <= s.sequence
  }

  /** A finished snapshot is one published batch that was current at some moment of the call. */
  ghost predicate Genuine(s: State, x: Snapshot) {
    && x.began <= x.version <= x.ended < |s.published|
    && x.batch == Clamped(s.published[x.version])
  }

  /** Calls of one reader do not overlap. */
  ghost predicate Ordered(xs: seq<Snapshot>, p: Phase) {
    && (forall j, k :: 0 <= j < k < |xs| ==> xs[j].ended <= xs[k].began)
    && (!p.Done? ==> forall k :: 0 <= k < |xs| ==> xs[k].ended <= p.since)
  }

  ghost predicate ReadersInv(s: State) {
    && s.readers.Keys == s.returned.Keys
    && (forall r :: r in s.readers ==> PhaseInv(s, s.readers[r]))
    && (forall r, k :: r in s.returned && 0 <= k < |s.returned[r]| ==> Genuine(s, s.returned[r][k]))
    && (forall r :: r in s.readers ==> Ordered(s.returned[r], s.readers[r]))
  }

  ghost predicate Inv(s: State) {
    WriterInv(s) && ReadersInv(s)
  }

  lemma {:induction false} BlankWords(b: Batch)
    requires IsEmpty(b)
    ensures Words(b) == seq(CAPACITY, _ => 0) && Metadata(b) == 0
  {
  }

  lemma {:induction false} InitHolds(s: State)
    requires Init(s)
    ensures Inv(s)
  {
    BlankWords(s.published[0]);
    assert s.records == Words(s.published[0]);
  }

  lemma {:induction false} WriterHolds(s: State, a: Action, n: State)
    requires WriterInv(s) && Step(s, a, n)
    ensures WriterInv(n)
  {
    match a {
      case StoreRecord =>
        var b := s.writer.batch;
        assert forall i :: 0 <= i <= s.writer.next ==> n.records[i] == Words(b)[i];
      case _ =>
    }
  }

  /** A step of the writer, or of another reader, never spoils what a reader has collected: either
      the words are still those of its publication or the sequence has moved past it. */
  lemma {:induction false} PhaseSurvives(s: State, a: Action, n: State, p: Phase)
    requires WriterInv(s) && Step(s, a, n) && PhaseInv(s, p)
    ensures PhaseInv(n, p)
  {
    if !p.Done? && !p.LoadingBefore? && p.before < |s.published| * 2 {
      assert n.published[p.before / 2] == s.published[p.before / 2];
    }
  }

  lemma {:induction false} LoadRecordHolds(s: State, r: Reader, n: State)
    requires WriterInv(s) && Step(s, LoadRecord(r), n) && PhaseInv(s, s.readers[r])
    ensures PhaseInv(n, n.readers[r])
  {
    var p := s.readers[r];
    if p.before == s.sequence {
      assert s.writer.Resting?;
      var words := Words(s.published[p.before / 2]);
      assert s.records == words;
      assert p.loaded + [s.records[|p.loaded|]] == words[..|p.loaded| + 1];
    }
  }

  lemma {:induction false} OwnPhaseHolds(s: State, a: Action, n: State)
    requires WriterInv(s) && Step(s, a, n)
    requires a.BeginSnapshot? || a.LoadBefore? || a.LoadRecord? || a.LoadMetadata? || a.LoadAfter?
    requires PhaseInv(s, s.readers[a.reader])
    ensures PhaseInv(n, n.readers[a.reader])
  {
    if a.LoadRecord? {
      LoadRecordHolds(s, a.reader, n);
    }
  }

  lemma {:induction false} ReturnIsGenuine(s: State, n: State, r: Reader)
    requires Inv(s) && Step(s, LoadAfter(r), n) && s.sequence == s.readers[r].before
    ensures n.returned[r] == s.returned[r] + [n.returned[r][|s.returned[r]|]]
    ensures var x := n.returned[r][|s.returned[r]|];
            Genuine(n, x) && x.began == s.readers[r].since
  {
    var p := s.readers[r];
    RebuildsClamped(s.published[p.before / 2]);
  }

  lemma {:induction false} PhasesHold(s: State, a: Action, n: State, r: Reader)
    requires Inv(s) && Step(s, a, n) && r in n.readers
    ensures PhaseInv(n, n.readers[r])
  {
    if n.readers[r] == s.readers[r] {
      PhaseSurvives(s, a, n, s.readers[r]);
    } else {
      OwnPhaseHolds(s, a, n);
    }
  }

  lemma {:induction false} OrderHolds(s: State, a: Action, n: State, r: Reader)
    requires Inv(s) && Step(s, a, n) && r in n.readers
    ensures r in n.returned && Ordered(n.returned[r], n.readers[r])
    ensures forall k :: 0 <= k < |n.returned[r]| ==> Genuine(n, n.returned[r][k])
  {
    hide WriterInv, Stamped;
    assert Ordered(s.returned[r], s.readers[r]);
    assert forall k :: 0 <= k < |s.returned[r]| ==> Genuine(s, s.returned[r][k]);
    assert s.published <= n.published;
    if a.LoadAfter? && a.reader == r && s.sequence == s.readers[r].before {
      ReturnIsGenuine(s, n, r);
    } else {
      assert n.returned[r] == s.returned[r];
    }
  }

  lemma {:induction false} ReadersHold(s: State, a: Action, n: State)
    requires Inv(s) && Step(s, a, n)
    ensures ReadersInv(n)
  {
    assert n.readers.Keys == n.returned.Keys;
    forall r | r in n.readers
      ensures PhaseInv(n, n.readers[r])
      ensures Ordered(n.returned[r], n.readers[r])
      ensures forall k :: 0 <= k < |n.returned[r]| ==> Genuine(n, n.returned[r][k])
    {
      PhasesHold(s, a, n, r);
      OrderHolds(s, a, n, r);
    }
  }

  ghost predicate Run(states: seq<State>, actions: seq<Action>) {
    && |states| == |actions| + 1
    && Init(states[0])
    && forall k :: 0 <= k < |actions| ==> Step(states[k], actions[k], states[k + 1])
  }

  lemma {:induction false} RunHolds(states: seq<State>, actions: seq<Action>, k: nat)
    requires Run(states, actions) && k < |states|
    ensures Inv(states[k])
  {
    if k == 0 {
      InitHolds(states[0]);
    } else {
      RunHolds(states, actions, k - 1);
      WriterHolds(states[k - 1], actions[k - 1], states[k]);
      ReadersHold(states[k - 1], actions[k - 1], states[k]);
    }
  }

  /** Every snapshot any reader ever returns is exactly one published batch (its count clamped), or
      the initial empty one, never a mixture, and that batch was the newest completed publication at
      some moment between the start and the end of the call. */
  lemma {:induction false} SnapshotsAreGenuine(states: seq<State>, actions: seq<Action>, k: nat, r: Reader, i: nat)
    requires Run(states, actions) && k < |states|
    requires r in states[k].returned && i < |states[k].returned[r]|
    ensures var x := states[k].returned[r][i];
            && x.began <= x.version <= x.ended < |states[k].published|
            && x.batch == Clamped(states[k].published[x.version])
  {
    RunHolds(states, actions, k);
    assert Genuine(states[k], states[k].returned[r][i]);
  }

  /** Successive snapshots of one reader never go back to an older publication. */
  lemma {:induction false} SnapshotsNeverGoBack(states: seq<State>, actions: seq<Action>, k: nat, r: Reader, i: nat, j: nat)
    requires Run(states, actions) && k < |states|
    requires r in states[k].returned && i < j < |states[k].returned[r]|
    ensures states[k].returned[r][i].version <= states[k].returned[r][j].version
  {
    RunHolds(states, actions, k);
    assert Genuine(states[k], states[k].returned[r][i]) && Genuine(states[k], states[k].returned[r][j]);
    assert Ordered(states[k].returned[r], states[k].readers[r]);
  }
}
