/** The publication protocol of GraphSnapshotPublisher: one atomic operation per step, any number
    of processor threads and control threads. Every atomic that orders the hand-over is
    sequentially consistent, so an interleaving of steps is faithful. */
module GraphPublisher {
  import opened Basics

  type GraphId = nat
  type Thread = nat

  /** Where a realtime thread stands inside process(). A null graph is `None`. */
  datatype Processor =
    | Outside
    | Entered
    | Holding(graph: Option<GraphId>)

  /** Where a control thread stands inside publish() or current(). The references a call keeps in
      its parameter and local variables are part of its position. */
  datatype Control =
    | Away
    | PublishWaiting(next: Option<GraphId>)
    | PublishLocked(next: Option<GraphId>)
    | PublishMoved(next: Option<GraphId>, previous: Option<GraphId>)
    | PublishInstalled(previous: Option<GraphId>)
    | PublishStored(previous: Option<GraphId>)
    | PublishDrained(previous: Option<GraphId>)
    | PublishReleased
    | CurrentWaiting
    | CurrentLocked
    | CurrentCopied(result: Option<GraphId>)

  /** `owner` is the control spin lock: the flag is set exactly when it is `Some`. Who set it is
      recorded for the proof only. `clients` counts the shared pointers callers keep, and `freed`
      the graphs whose last shared pointer has gone. */
  datatype State = State(
    owner: Option<Thread>,
    graph: Option<GraphId>,
    activeGraph: Option<GraphId>,
    activeProcessors: nat,
    processors: map<Thread, Processor>,
    controls: map<Thread, Control>,
    clients: multiset<GraphId>,
    freed: set<GraphId>)

  datatype Action =
    | Enter(thread: Thread)
    | LoadGraph(thread: Thread)
    | Leave(thread: Thread)
    | CallPublish(thread: Thread, graph: Option<GraphId>)
    | CallCurrent(thread: Thread)
    | Lock(thread: Thread)
    | MoveOut(thread: Thread)
    | Install(thread: Thread)
    | StoreActive(thread: Thread)
    | SeeDrained(thread: Thread)
    | ResetPrevious(thread: Thread)
    | CopyGraph(thread: Thread)
    | Unlock(thread: Thread)
    | ClientTakes(client: GraphId)
    | ClientDrops(client: GraphId)

  predicate Refers(c: Control, g: GraphId) {
    match c
    case PublishWaiting(n) => n == Some(g)
    case PublishLocked(n) => n == Some(g)
    case PublishMoved(n, p) => n == Some(g) || p == Some(g)
    case PublishInstalled(p) => p == Some(g)
    case PublishStored(p) => p == Some(g)
    case PublishDrained(p) => p == Some(g)
    case CurrentCopied(r) => r == Some(g)
    case _ => false
  }

  /** Some shared pointer still owns the graph. */
  predicate Owned(s: State, g: GraphId) {
    || s.graph == Some(g)
    || g in s.clients
    || exists t :: t in s.controls && Refers(s.controls[t], g)
  }

  predicate InCritical(c: Control) {
    !c.Away? && !c.PublishWaiting? && !c.CurrentWaiting?
  }

  /** The threads counted by active_processors_. */
  function Inside(processors: map<Thread, Processor>): set<Thread> {
    set t | t in processors && !processors[t].Outside?
  }

  /** Dropping one shared pointer: the graph is freed when no other owner is left. */
  function AfterDrop(s: State, dropped: Option<GraphId>): State {
    if dropped.Some? && !Owned(s, dropped.value) then s.(freed := s.freed + {dropped.value}) else s
  }

  ghost predicate Init(s: State) {
    && s.owner == None
    && s.activeGraph == s.graph
    && s.activeProcessors == 0
    && |s.processors| < U32_MODULUS
    && (forall t :: t in s.processors ==> s.processors[t].Outside?)
    && (forall t :: t in s.controls ==> s.controls[t].Away?)
    && (forall g :: g in s.freed ==> !Owned(s, g))
  }

  ghost predicate Step(s: State, a: Action, n: State) {
    match a
    case Enter(t) =>
      && t in s.processors && s.processors[t].Outside?
      && n == s.(activeProcessors := (s.activeProcessors + 1) % U32_MODULUS,
                 processors := s.processors[t := Entered])
    case LoadGraph(t) =>
      && t in s.processors && s.processors[t].Entered?
      && n == s.(processors := s.processors[t := Holding(s.activeGraph)])
    case Leave(t) =>
      && t in s.processors && s.processors[t].Holding?
      && n == s.(activeProcessors := (s.activeProcessors + U32_MAX) % U32_MODULUS,
                 processors := s.processors[t := Outside])
    case CallPublish(t, g) =>
      && t in s.controls && s.controls[t].Away?
      && (g.Some? ==> g.value !in s.freed)
      && n == s.(controls := s.controls[t := PublishWaiting(g)])
    case CallCurrent(t) =>
      && t in s.controls && s.controls[t].Away?
      && n == s.(controls := s.controls[t := CurrentWaiting])
    case Lock(t) =>
      && t in s.controls && s.owner == None
      && (s.controls[t].PublishWaiting? || s.controls[t].CurrentWaiting?)
      && n == s.(owner := Some(t),
                 controls := s.controls[t := if s.controls[t].PublishWaiting?
                                             then PublishLocked(s.controls[t].next) else CurrentLocked])
    case MoveOut(t) =>
      && t in s.controls && s.controls[t].PublishLocked?
      && n == s.(graph := None, controls := s.controls[t := PublishMoved(s.controls[t].next, s.graph)])
    case Install(t) =>
      && t in s.controls && s.controls[t].PublishMoved?
      && n == s.(graph := s.controls[t].next,
                 controls := s.controls[t := PublishInstalled(s.controls[t].previous)])
    case StoreActive(t) =>
      && t in s.controls && s.controls[t].PublishInstalled?
      && n == s.(activeGraph := s.graph,
                 controls := s.controls[t := PublishStored(s.controls[t].previous)])
    case SeeDrained(t) =>
      && t in s.controls && s.controls[t].PublishStored? && s.activeProcessors == 0
      && n == s.(controls := s.controls[t := PublishDrained(s.controls[t].previous)])
    case ResetPrevious(t) =>
      && t in s.controls && s.controls[t].PublishDrained?
      && n == AfterDrop(s.(controls := s.controls[t := PublishReleased]), s.controls[t].previous)
    case CopyGraph(t) =>
      && t in s.controls && s.controls[t].CurrentLocked?
      && n == s.(controls := s.controls[t := CurrentCopied(s.graph)])
    case Unlock(t) =>
      && t in s.controls && (s.controls[t].PublishReleased? || s.controls[t].CurrentCopied?)
      && n == s.(owner := None,
                 controls := s.controls[t := Away],
                 clients := if s.controls[t].CurrentCopied? && s.controls[t].result.Some?
                            then s.clients + multiset{s.controls[t].result.value} else s.clients)
    case ClientTakes(g) =>
      && g !in s.freed
      && n == s.(clients := s.clients + multiset{g})
    case ClientDrops(g) =>
      && g in s.clients
      && n == AfterDrop(s.(clients := s.clients - multiset{g}), Some(g))
  }

  /** The graph a processor may still be using besides the active one: the one being replaced,
      while publish() waits for the reader count. */
  predicate Draining(s: State, g: Option<GraphId>) {
    && s.owner.Some? && s.owner.value in s.controls
    && s.controls[s.owner.value] == PublishStored(g)
  }

  ghost predicate CountInv(s: State) {
    |s.processors| < U32_MODULUS && s.activeProcessors == |Inside(s.processors)|
  }

  ghost predicate LockInv(s: State) {
    && (s.owner.Some? ==> s.owner.value in s.controls)
    && forall t :: t in s.controls ==> (InCritical(s.controls[t]) <==> s.owner == Some(t))
  }

  /** The raw pointer the audio path loads is the owned graph, except between moving the owned
      graph out and storing its replacement. */
  ghost predicate PointerInv(s: State)
    requires LockInv(s)
  {
    match s.owner
    case None => s.activeGraph == s.graph
    case Some(t) =>
      match s.controls[t]
      case PublishMoved(_, p) => s.activeGraph == p
      case PublishInstalled(p) => s.activeGraph == p
      case _ => s.activeGraph == s.graph
  }

  ghost predicate HoldInv(s: State) {
    forall t :: t in s.processors && s.processors[t].Holding? ==>
      s.processors[t].graph == s.activeGraph || Draining(s, s.processors[t].graph)
  }

  ghost predicate FreedInv(s: State) {
    forall g :: g in s.freed ==> !Owned(s, g)
  }

  ghost predicate Inv(s: State) {
    CountInv(s) && LockInv(s) && PointerInv(s) && HoldInv(s) && FreedInv(s)
  }

  lemma {:induction false} InitHolds(s: State)
    requires Init(s)
    ensures Inv(s)
  {
    assert Inside(s.processors) == {};
  }

  lemma {:induction false} InsideBound(processors: map<Thread, Processor>)
    ensures |Inside(processors)| <= |processors|
  {
    SubsetSize(Inside(processors), processors.Keys);
  }

  /** Moving one thread in or out changes the number inside by one. */
  lemma {:induction false} InsideAfter(processors: map<Thread, Processor>, t: Thread, p: Processor)
    requires t in processors
    ensures var after := processors[t := p];
            && |after| == |processors|
            && |Inside(after)| == |Inside(processors)|
                                  - (if processors[t].Outside? then 0 else 1) + (if p.Outside? then 0 else 1)
  {
    var after := processors[t := p];
    assert after.Keys == processors.Keys;
    assert |after| == |after.Keys| && |processors| == |processors.Keys|;
    var others := Inside(processors) - {t};
    assert Inside(processors) == if processors[t].Outside? then others else others + {t};
    assert Inside(after) == if p.Outside? then others else others + {t};
  }

  lemma {:induction false} CountHolds(s: State, a: Action, n: State)
    requires CountInv(s) && Step(s, a, n)
    ensures CountInv(n)
  {
    if a.Enter? || a.LoadGraph? || a.Leave? {
      InsideAfter(s.processors, a.thread, n.processors[a.thread]);
      InsideBound(n.processors);
      InsideBound(s.processors);
    }
  }

  lemma {:induction false} FreedStays(s: State, a: Action, n: State, g: GraphId)
    requires FreedInv(s) && Step(s, a, n) && g in s.freed
    ensures !Owned(n, g)
  {
    assert !Owned(s, g);
    forall t | t in n.controls
      ensures !Refers(n.controls[t], g)
    {
      assert !Refers(s.controls[t], g);
    }
  }

  lemma {:induction false} FreedHolds(s: State, a: Action, n: State)
    requires FreedInv(s) && Step(s, a, n)
    ensures FreedInv(n)
  {
    forall g | g in n.freed
      ensures !Owned(n, g)
    {
      if g in s.freed {
        FreedStays(s, a, n, g);
      } else {
        var before := if a.ResetPrevious? then s.(controls := s.controls[a.thread := PublishReleased])
                      else s.(clients := s.clients - multiset{g});
        assert n == before.(freed := n.freed);
        assert !Owned(before, g);
      }
    }
  }

  lemma {:induction false} LockHolds(s: State, a: Action, n: State)
    requires LockInv(s) && Step(s, a, n)
    ensures LockInv(n)
  {
    assert n.controls.Keys == s.controls.Keys;
  }

  lemma {:induction false} PointerHolds(s: State, a: Action, n: State)
    requires LockInv(s) && PointerInv(s) && Step(s, a, n) && LockInv(n)
    ensures PointerInv(n)
  {
  }

  lemma {:induction false} SomeoneInside(processors: map<Thread, Processor>, t: Thread)
    requires t in processors && !processors[t].Outside?
    ensures |Inside(processors)| > 0
  {
    assert t in Inside(processors);
  }

  lemma {:induction false} HoldHolds(s: State, a: Action, n: State)
    requires Inv(s) && Step(s, a, n)
    ensures HoldInv(n)
  {
    forall t | t in n.processors && n.processors[t].Holding?
      ensures n.processors[t].graph == n.activeGraph || Draining(n, n.processors[t].graph)
    {
      SomeoneInside(s.processors, t);
    }
  }

  lemma {:induction false} StepHolds(s: State, a: Action, n: State)
    requires Inv(s) && Step(s, a, n)
    ensures Inv(n)
  {
    CountHolds(s, a, n);
    LockHolds(s, a, n);
    PointerHolds(s, a, n);
    HoldHolds(s, a, n);
    FreedHolds(s, a, n);
  }

  ghost predicate Run(states: seq<State>, actions: seq<Action>) {
    && |states| == |actions| + 1
    && Init(states[0])
    && forall k :: 0 <= k < |actions| ==> Step(states[k], actions[k], states[k + 1])
  }

  lemma {:induction false} RunHolds(states: seq<State>, actions: seq<Action>, k: nat)
    requires Run(states, actions) && k < |states|
    ensures Inv(states[k])
  {
    if k == 0 {
      InitHolds(states[0]);
    } else {
      RunHolds(states, actions, k - 1);
      StepHolds(states[k - 1], actions[k - 1], states[k]);
    }
  }

  /** Safety over whole runs: a graph that a processor has loaded and not yet finished with is still
      owned by the publisher, so it has not been freed; and the reader count is exactly the number
      of threads inside process(). */
  lemma {:induction false} NoGraphFreedInUse(states: seq<State>, actions: seq<Action>, k: nat, t: Thread)
    requires Run(states, actions) && k < |states|
    requires t in states[k].processors && states[k].processors[t].Holding?
    ensures var g := states[k].processors[t].graph;
            g.Some? ==> g.value !in states[k].freed && Owned(states[k], g.value)
    ensures states[k].activeProcessors == |Inside(states[k].processors)| > 0
  {
    RunHolds(states, actions, k);
    var s := states[k];
    assert t in Inside(s.processors);
    var g := s.processors[t].graph;
    if g.Some? && s.graph != g {
      var c := s.owner.value;
      assert Refers(s.controls[c], g.value);
    }
  }

  /** The grace period: from the moment publish() has seen the count at zero until the next
      publication stores its graph, every processor inside uses the graph current() would return.
      In particular the replaced graph is in nobody's hands when publish() resets it. */
  lemma {:induction false} GracePeriod(states: seq<State>, actions: seq<Action>, k: nat, t: Thread)
    requires Run(states, actions) && k < |states|
    requires t in states[k].processors && states[k].processors[t].Holding?
    requires forall u :: u in states[k].controls ==>
               var c := states[k].controls[u];
               !c.PublishMoved? && !c.PublishInstalled? && !c.PublishStored?
    ensures states[k].processors[t].graph == states[k].graph
  {
    RunHolds(states, actions, k);
  }

  /** What current() hands out stays alive for as long as the caller keeps it. */
  lemma {:induction false} ClientsKeepGraphs(states: seq<State>, actions: seq<Action>, k: nat, g: GraphId)
    requires Run(states, actions) && k < |states| && g in states[k].clients
    ensures g !in states[k].freed
  {
    RunHolds(states, actions, k);
  }

  /** Mutual exclusion of the control spin lock. */
  lemma {:induction false} ControlExclusion(states: seq<State>, actions: seq<Action>, k: nat, t: Thread, u: Thread)
    requires Run(states, actions) && k < |states|
    requires t in states[k].controls && InCritical(states[k].controls[t])
    requires u in states[k].controls && InCritical(states[k].controls[u])
    ensures t == u && states[k].owner == Some(t)
  {
    RunHolds(states, actions, k);
  }
}
