/** A whole Virtual ASIO bus at work: the claim and release protocol of SlotProtocol together with the
    frames of every slot. Any number of agents attach, push or read through their handles and detach while
    the graph side reads or writes; their steps interleave in every order. Clearing a slot is not guarded
    here: that nobody is in the middle of it is proved. */
module BusProtocol {
  import opened Basics
  import opened AudioFifo
  import Q = BlockQueueProtocol
  import P = SlotProtocol
  import R = RenderStreamProtocol
  import C = CaptureStreamProtocol

  datatype Stream = Rendering(render: R.State) | Capturing(capture: C.State)

  datatype State = State(protocol: P.State, streams: seq<Stream>)

  /** `HandleWork` and `GraphWork` are the steps of push(), read() and write() behind their checks of the slot;
      a call that begins is given `buffer`. Between a check and the end of its call several calls may follow
      each other, which only adds runs. */
  datatype Action =
    | Protocol(action: P.Action)
    | HandleWork(agent: P.Agent, buffer: seq<Frame>)
    | GraphWork(buffer: seq<Frame>)

  predicate Shaped(t: Stream) {
    match t
    case Rendering(render) => R.Shaped(render)
    case Capturing(capture) => C.Shaped(capture)
  }

  function Life(t: Stream): Q.Life {
    match t
    case Rendering(render) => render.life
    case Capturing(capture) => capture.life
  }

  predicate HandleAtRest(t: Stream) {
    match t
    case Rendering(render) => R.HandleAtRest(render)
    case Capturing(capture) => C.HandleAtRest(capture)
  }

  predicate GraphAtRest(t: Stream) {
    match t
    case Rendering(render) => R.GraphAtRest(render)
    case Capturing(capture) => C.GraphAtRest(capture)
  }

  function HandleNext(t: Stream, buffer: seq<Frame>): Stream
    requires Shaped(t)
  {
    match t
    case Rendering(render) => Rendering(R.HandleNext(render, buffer))
    case Capturing(capture) => Capturing(C.HandleNext(capture, buffer))
  }

  function GraphNext(t: Stream, buffer: seq<Frame>): Stream
    requires Shaped(t)
  {
    match t
    case Rendering(render) => Rendering(R.GraphNext(render))
    case Capturing(capture) => Capturing(C.GraphNext(capture, buffer))
  }

  function ClearNext(t: Stream): Stream
    requires Shaped(t)
  {
    match t
    case Rendering(render) => Rendering(R.ClearNext(render))
    case Capturing(capture) => Capturing(C.ClearNext(capture))
  }

  /** The slot the agent or the graph side works on, and its stream afterwards. */
  ghost predicate Works(s: State, n: State, i: nat, t: Stream) {
    i < |s.streams| && n == s.(streams := s.streams[i := t])
  }

  /** A step of the protocol. A call through a handle, or on the graph side, ends only when its work is done;
      the steps of attach() and detach() that clear the slot do so. */
  ghost predicate ProtocolStep(s: State, action: P.Action, n: State) {
    && P.Step(s.protocol, action, n.protocol)
    && match action
       case AgentStep(a) =>
         && a in s.protocol.agents
         && var i, phase := s.protocol.agents[a].slot, s.protocol.agents[a].phase;
            && (phase.HandleBusy? ==> i < |s.streams| && HandleAtRest(s.streams[i]))
            && if P.Resets(phase) then i < |s.streams| && Shaped(s.streams[i]) && n.streams == s.streams[i := ClearNext(s.streams[i])]
               else n.streams == s.streams
       case GraphStep =>
         && n.streams == s.streams
         && (s.protocol.graph.Busy? ==>
               s.protocol.graph.slot < |s.streams| && GraphAtRest(s.streams[s.protocol.graph.slot]))
       case _ => n.streams == s.streams
  }

  ghost predicate Step(s: State, action: Action, n: State) {
    match action
    case Protocol(step) => ProtocolStep(s, step, n)
    case HandleWork(a, buffer) =>
      && a in s.protocol.agents && s.protocol.agents[a].phase.HandleBusy?
      && var i := s.protocol.agents[a].slot;
         i < |s.streams| && Shaped(s.streams[i]) && Works(s, n, i, HandleNext(s.streams[i], buffer))
    case GraphWork(buffer) =>
      && s.protocol.graph.Busy?
      && var i := s.protocol.graph.slot;
         i < |s.streams| && Shaped(s.streams[i]) && Works(s, n, i, GraphNext(s.streams[i], buffer))
  }

  predicate Initial(t: Stream) {
    match t
    case Rendering(render) => R.Initial(render)
    case Capturing(capture) => C.Initial(capture)
  }

  ghost predicate Init(s: State) {
    && P.Init(s.protocol) && |s.streams| == |s.protocol.slots|
    && forall i :: 0 <= i < |s.streams| ==> Initial(s.streams[i]) && s.streams[i].Capturing? == s.protocol.handleFlagged
  }

  ghost predicate StreamInv(t: Stream) {
    match t
    case Rendering(render) => R.Inv(render)
    case Capturing(capture) => C.Inv(capture)
  }

  /** How much of its slot an agent in this phase has cleared. */
  function LifeIn(phase: P.Phase): Q.Life {
    if phase.AttachResetWrite? || phase.DetachResetWrite? then Q.ReadCleared
    else if phase.AttachResetPending? || phase.DetachResetPending? then Q.IndicesCleared
    else Q.InUse
  }

  ghost predicate UsesSlot(s: P.State, a: P.Agent, i: nat) {
    a in s.agents && P.Uses(s.agents[a].phase) && s.agents[a].slot == i
  }

  /** Whoever is in the middle of the slot is where the protocol says. */
  ghost predicate Tied(s: P.State, i: nat, t: Stream) {
    && StreamInv(t)
    && (!HandleAtRest(t) ==> exists a :: UsesSlot(s, a, i) && s.agents[a].phase.HandleBusy?)
    && (!GraphAtRest(t) ==> s.graph == P.Busy(i))
    && (Life(t) != Q.InUse ==> exists a :: UsesSlot(s, a, i))
    && forall a :: UsesSlot(s, a, i) ==> Life(t) == LifeIn(s.agents[a].phase)
  }

  ghost predicate Inv(s: State) {
    && P.Inv(s.protocol) && |s.streams| == |s.protocol.slots|
    && forall i :: 0 <= i < |s.streams| ==> Tied(s.protocol, i, s.streams[i])
  }

  lemma StreamHandleHolds(t: Stream, buffer: seq<Frame>)
    requires StreamInv(t) && Life(t) == Q.InUse
    ensures Shaped(t)
    ensures var r := HandleNext(t, buffer); StreamInv(r) && Life(r) == Q.InUse && GraphAtRest(r) == GraphAtRest(t)
  {
    match t
    case Rendering(render) => R.HandleHolds(render, buffer);
    case Capturing(capture) => C.HandleHolds(capture, buffer);
  }

  lemma StreamGraphHolds(t: Stream, buffer: seq<Frame>)
    requires StreamInv(t) && Life(t) == Q.InUse
    ensures Shaped(t)
    ensures var r := GraphNext(t, buffer); StreamInv(r) && Life(r) == Q.InUse && HandleAtRest(r) == HandleAtRest(t)
  {
    match t
    case Rendering(render) => R.GraphHolds(render);
    case Capturing(capture) => C.GraphHolds(capture, buffer);
  }

  lemma StreamClearHolds(t: Stream)
    requires StreamInv(t) && HandleAtRest(t) && GraphAtRest(t)
    ensures Shaped(t)
    ensures var r := ClearNext(t); StreamInv(r) && HandleAtRest(r) && GraphAtRest(r)
    ensures Life(ClearNext(t)) == Further(Life(t))
  {
    match t
    case Rendering(render) => R.ClearHolds(render);
    case Capturing(capture) => C.ClearHolds(capture);
  }

  lemma InitHolds(s: State)
    requires Init(s)
    ensures Inv(s)
  {
    P.InitHolds(s.protocol);
    forall i | 0 <= i < |s.streams|
      ensures Tied(s.protocol, i, s.streams[i])
    {
      match s.streams[i] {
        case Rendering(render) => R.InitialHolds(render);
        case Capturing(capture) => C.InitialHolds(capture);
      }
    }
  }

  lemma HandleWorkHolds(s: State, a: P.Agent, buffer: seq<Frame>, n: State)
    requires Inv(s) && Step(s, HandleWork(a, buffer), n)
    ensures Inv(n)
  {
    hide P.Inv, StreamInv, Shaped, HandleAtRest, GraphAtRest, HandleNext, Life;
    var i := s.protocol.agents[a].slot;
    assert Tied(s.protocol, i, s.streams[i]) && UsesSlot(s.protocol, a, i);
    StreamHandleHolds(s.streams[i], buffer);
    assert Tied(n.protocol, i, n.streams[i]);
  }

  /** The slot the graph side works on is not being cleared. */
  lemma BusyIsInUse(s: State)
    requires Inv(s) && s.protocol.graph.Busy?
    ensures var i := s.protocol.graph.slot; i < |s.streams| && Life(s.streams[i]) == Q.InUse
  {
    hide StreamInv, Life;
    var i := s.protocol.graph.slot;
    assert Tied(s.protocol, i, s.streams[i]);
  }

  lemma GraphWorkHolds(s: State, buffer: seq<Frame>, n: State)
    requires Inv(s) && Step(s, GraphWork(buffer), n)
    ensures Inv(n)
  {
    BusyIsInUse(s);
    hide P.Inv, StreamInv, Shaped, HandleAtRest, GraphAtRest, GraphNext, Life;
    var i := s.protocol.graph.slot;
    assert Tied(s.protocol, i, s.streams[i]);
    StreamGraphHolds(s.streams[i], buffer);
    assert Tied(n.protocol, i, n.streams[i]);
  }

  /** Nobody is in the middle of a slot that is being cleared. */
  lemma ResetFindsRest(s: State, a: P.Agent)
    requires Inv(s) && a in s.protocol.agents && P.Resets(s.protocol.agents[a].phase)
    ensures var i := s.protocol.agents[a].slot;
            i < |s.streams| && HandleAtRest(s.streams[i]) && GraphAtRest(s.streams[i])
            && Life(s.streams[i]) == LifeIn(s.protocol.agents[a].phase)
  {
    hide StreamInv, HandleAtRest, GraphAtRest, Life;
    var i := s.protocol.agents[a].slot;
    assert P.PlaceInv(s.protocol, s.protocol.agents[a]);
    assert UsesSlot(s.protocol, a, i) && Tied(s.protocol, i, s.streams[i]);
  }

  /** Clearing a slot takes three steps. */
  function Further(life: Q.Life): Q.Life {
    match life
    case InUse => Q.ReadCleared
    case ReadCleared => Q.IndicesCleared
    case IndicesCleared => Q.InUse
  }

  lemma {:induction false} PhaseClears(flagged: bool, mutexFree: bool, next: nat, p: P.Place, slot: P.Slot)
    ensures var q := P.EffectOf(flagged, mutexFree, next, p, slot).place;
            && (P.Resets(p.phase) ==> P.Uses(q.phase))
            && LifeIn(q.phase) == (if P.Resets(p.phase) then Further(LifeIn(p.phase)) else Q.InUse)
            && (!P.Resets(p.phase) ==> LifeIn(p.phase) == Q.InUse)
  {
    hide P.Owns;
  }

  /** The phases and slots between which an agent's step leads, as far as the streams are concerned. */
  lemma PhaseSteps(s: P.State, a: P.Agent)
    requires P.Inv(s) && a in s.agents && s.agents[a].slot < |s.slots|
    ensures var p, q := s.agents[a], P.Next(s, a).place;
            && (P.Resets(p.phase) ==> q.slot == p.slot && P.Uses(q.phase))
            && (P.Uses(q.phase) ==> q.slot == p.slot)
            && (P.Uses(q.phase) && !P.Uses(p.phase) ==> s.slots[p.slot].status == Idle)
            && LifeIn(q.phase) == (if P.Resets(p.phase) then Further(LifeIn(p.phase)) else Q.InUse)
            && (!P.Resets(p.phase) ==> LifeIn(p.phase) == Q.InUse)
  {
    P.StatusChangeOf(s, a);
    PhaseClears(s.handleFlagged, s.mutex == None, s.nextGeneration, s.agents[a], s.slots[s.agents[a].slot]);
    hide P.Inv, P.EffectOf, P.Resets, P.Uses, LifeIn;
  }

  /** A step elsewhere in the protocol leaves a slot's ties as they were. */
  lemma TiedCarries(s: P.State, n: P.State, i: nat, t: Stream)
    requires Tied(s, i, t)
    requires !GraphAtRest(t) ==> n.graph == s.graph
    requires forall a :: UsesSlot(n, a, i) && !UsesSlot(s, a, i) ==> Life(t) == LifeIn(n.agents[a].phase)
    requires forall a :: UsesSlot(n, a, i) && UsesSlot(s, a, i) ==> LifeIn(n.agents[a].phase) == LifeIn(s.agents[a].phase)
    requires forall a :: UsesSlot(s, a, i) && s.agents[a].phase.HandleBusy? && !HandleAtRest(t) ==>
               UsesSlot(n, a, i) && n.agents[a].phase.HandleBusy?
    requires forall a :: UsesSlot(s, a, i) && Life(t) != Q.InUse ==> UsesSlot(n, a, i)
    ensures Tied(n, i, t)
  {
    if !HandleAtRest(t) {
      var a :| UsesSlot(s, a, i) && s.agents[a].phase.HandleBusy?;
      assert UsesSlot(n, a, i) && n.agents[a].phase.HandleBusy?;
    }
    if Life(t) != Q.InUse {
      var a :| UsesSlot(s, a, i);
      assert UsesSlot(n, a, i);
    }
  }

  /** A slot nobody uses is in no part of being cleared. */
  lemma IdleIsInUse(s: State, i: nat)
    requires Inv(s) && i < |s.streams| && s.protocol.slots[i].status == Idle
    ensures Life(s.streams[i]) == Q.InUse
  {
    hide StreamInv, Life;
    assert Tied(s.protocol, i, s.streams[i]);
    if Life(s.streams[i]) != Q.InUse {
      var a :| UsesSlot(s.protocol, a, i);
      P.UsedIsNotIdle(s.protocol, a);
    }
  }

  /** What a step of an agent that has a slot does to the agents and the streams. */
  lemma AgentMoves(s: State, a: P.Agent, n: State)
    requires Inv(s) && Step(s, Protocol(P.AgentStep(a)), n) && s.protocol.agents[a].slot < |s.streams|
    ensures var i, p, q := s.protocol.agents[a].slot, s.protocol.agents[a], P.Next(s.protocol, a).place;
            && n.protocol.agents == s.protocol.agents[a := q] && n.protocol.graph == s.protocol.graph
            && (p.phase.HandleBusy? ==> HandleAtRest(s.streams[i]))
            && Shaped(s.streams[i])
            && n.streams == if P.Resets(p.phase) then s.streams[i := ClearNext(s.streams[i])] else s.streams
  {
    hide P.Inv, P.EffectOf, P.Resets, HandleAtRest, ClearNext, Life, GraphAtRest;
    assert Tied(s.protocol, s.protocol.agents[a].slot, s.streams[s.protocol.agents[a].slot]);
  }

  /** The step of an agent, seen from another slot. */
  lemma OtherSlotTied(s: State, a: P.Agent, n: State, i: nat)
    requires Inv(s) && Step(s, Protocol(P.AgentStep(a)), n) && s.protocol.agents[a].slot < |s.streams|
    requires i < |s.streams| && i != s.protocol.agents[a].slot
    ensures |n.streams| == |s.streams| && Tied(n.protocol, i, n.streams[i])
  {
    PhaseSteps(s.protocol, a);
    AgentMoves(s, a, n);
    hide P.Inv, P.Next, Step, P.Resets, P.Uses, StreamInv, Life, HandleAtRest, GraphAtRest, ClearNext, LifeIn;
    TiedCarries(s.protocol, n.protocol, i, s.streams[i]);
  }

  /** A step of an agent that clears its slot. */
  lemma ClearedTied(s: State, a: P.Agent, n: State)
    requires Inv(s) && Step(s, Protocol(P.AgentStep(a)), n) && P.Resets(s.protocol.agents[a].phase)
    requires P.ExclusiveInv(n.protocol)
    ensures var i := s.protocol.agents[a].slot; i < |n.streams| && Tied(n.protocol, i, n.streams[i])
  {
    var i := s.protocol.agents[a].slot;
    ResetFindsRest(s, a);
    PhaseSteps(s.protocol, a);
    AgentMoves(s, a, n);
    StreamClearHolds(s.streams[i]);
    hide P.Inv, P.Next, Step, Inv, P.Resets, P.Uses, StreamInv, Life, HandleAtRest, GraphAtRest, ClearNext, LifeIn;
    assert UsesSlot(n.protocol, a, i);
    assert forall b :: UsesSlot(n.protocol, b, i) ==> b == a;
  }

  /** A step of an agent that leaves the frames of its slot alone. */
  lemma UnclearedTied(s: State, a: P.Agent, n: State)
    requires Inv(s) && Step(s, Protocol(P.AgentStep(a)), n) && !P.Resets(s.protocol.agents[a].phase)
    requires s.protocol.agents[a].slot < |s.streams|
    ensures var i := s.protocol.agents[a].slot; n.streams == s.streams && Tied(n.protocol, i, n.streams[i])
  {
    var i := s.protocol.agents[a].slot;
    PhaseSteps(s.protocol, a);
    AgentMoves(s, a, n);
    if s.protocol.slots[i].status == Idle {
      IdleIsInUse(s, i);
    }
    hide P.Inv, P.Next, Step, P.Resets, P.Uses, StreamInv, Life, HandleAtRest, GraphAtRest, ClearNext, LifeIn;
    TiedCarries(s.protocol, n.protocol, i, s.streams[i]);
  }

  /** attach() has tried every slot. */
  lemma SearchTied(s: State, a: P.Agent, n: State, i: nat)
    requires Inv(s) && Step(s, Protocol(P.AgentStep(a)), n) && s.protocol.agents[a].slot >= |s.streams| > i
    ensures n.streams == s.streams && Tied(n.protocol, i, n.streams[i])
  {
    hide P.Inv, StreamInv, Life, HandleAtRest, GraphAtRest, ClearNext, P.EffectOf, P.After;
    TiedCarries(s.protocol, n.protocol, i, s.streams[i]);
  }

  lemma AgentTied(s: State, a: P.Agent, n: State, i: nat)
    requires Inv(s) && Step(s, Protocol(P.AgentStep(a)), n) && i < |s.streams| && P.ExclusiveInv(n.protocol)
    ensures |n.streams| == |s.streams| && Tied(n.protocol, i, n.streams[i])
  {
    hide P.Step, P.Inv, Tied, ClearNext, P.Resets;
    if s.protocol.agents[a].slot >= |s.streams| {
      SearchTied(s, a, n, i);
    } else if i != s.protocol.agents[a].slot {
      OtherSlotTied(s, a, n, i);
    } else if P.Resets(s.protocol.agents[a].phase) {
      ClearedTied(s, a, n);
    } else {
      UnclearedTied(s, a, n);
    }
  }

  lemma KeepsSlots(s: P.State, action: P.Action, n: P.State)
    requires P.Step(s, action, n)
    ensures |n.slots| == |s.slots|
  {
  }

  lemma CallTied(s: State, a: P.Agent, n: State, from: P.Phase, to: P.Phase, i: nat)
    requires Inv(s) && P.Calls(s.protocol, n.protocol, a, from, to) && i < |s.streams|
    requires (from == P.Free && to == P.AttachWaiting) || (from == P.Attached && (to == P.HandleCheck || to == P.DetachWaiting))
    ensures Tied(n.protocol, i, s.streams[i])
  {
    hide P.Inv, StreamInv, Life, HandleAtRest, GraphAtRest;
    TiedCarries(s.protocol, n.protocol, i, s.streams[i]);
  }

  lemma GraphTied(s: State, action: P.Action, n: State, i: nat)
    requires Inv(s) && Step(s, Protocol(action), n) && (action.GraphVisit? || action.GraphStep?) && i < |s.streams|
    ensures Tied(n.protocol, i, s.streams[i])
  {
    hide P.Inv, StreamInv, Life, HandleAtRest, GraphAtRest;
    assert n.protocol.agents == s.protocol.agents;
    TiedCarries(s.protocol, n.protocol, i, s.streams[i]);
  }

  lemma OtherTied(s: State, action: P.Action, n: State, i: nat)
    requires Inv(s) && Step(s, Protocol(action), n) && !action.AgentStep? && i < |s.streams|
    ensures n.streams == s.streams && Tied(n.protocol, i, s.streams[i])
  {
    hide Inv, Tied;
    match action
    case CallAttach(a) => CallTied(s, a, n, P.Free, P.AttachWaiting, i);
    case CallHandle(a) => CallTied(s, a, n, P.Attached, P.HandleCheck, i);
    case CallDetach(a) => CallTied(s, a, n, P.Attached, P.DetachWaiting, i);
    case _ => GraphTied(s, action, n, i);
  }

  lemma ProtocolHolds(s: State, action: P.Action, n: State)
    requires Inv(s) && Step(s, Protocol(action), n)
    ensures Inv(n)
  {
    P.StepHolds(s.protocol, action, n.protocol);
    KeepsSlots(s.protocol, action, n.protocol);
    assert P.ExclusiveInv(n.protocol);
    hide P.Inv, P.Step, Tied;
    if action.AgentStep? {
      assert |n.streams| == |s.streams|;
      forall i | 0 <= i < |n.streams|
        ensures Tied(n.protocol, i, n.streams[i])
      {
        AgentTied(s, action.agent, n, i);
      }
    } else {
      forall i | 0 <= i < |n.streams|
        ensures Tied(n.protocol, i, n.streams[i])
      {
        OtherTied(s, action, n, i);
      }
    }
  }

  lemma StepHolds(s: State, action: Action, n: State)
    requires Inv(s) && Step(s, action, n)
    ensures Inv(n)
  {
    hide Inv, Step;
    match action
    case Protocol(step) => ProtocolHolds(s, step, n);
    case HandleWork(a, buffer) => HandleWorkHolds(s, a, buffer, n);
    case GraphWork(buffer) => GraphWorkHolds(s, buffer, n);
  }

  ghost predicate Run(states: seq<State>, actions: seq<Action>) {
    && |states| == |actions| + 1
    && Init(states[0])
    && forall k :: 0 <= k < |actions| ==> Step(states[k], actions[k], states[k + 1])
  }

  lemma {:induction false} RunHolds(states: seq<State>, actions: seq<Action>, k: nat)
    requires Run(states, actions) && k < |states|
    ensures Inv(states[k])
  {
    if k == 0 {
      InitHolds(states[0]);
    } else {
      RunHolds(states, actions, k - 1);
      StepHolds(states[k - 1], actions[k - 1], states[k]);
    }
  }

  ghost predicate Kept(t: Stream) {
    match t
    case Rendering(render) => R.Kept(render)
    case Capturing(capture) => C.Kept(capture)
  }

  /** The stream laws hold in every run, whoever attaches, works and detaches meanwhile. On the render bus the
      frames mixed in, then those queued, then the block between the two stores, then the pending ones, are
      exactly the frames accepted since the slot was cleared; the drop path is never taken, and no push that
      began with room is refused. On the capture bus the frames handed out, then the pending ones, then those
      of the other queued blocks, are exactly the frames queued; nothing overflows, and no read that began with
      enough frames fails. */
  lemma {:induction false} StreamsAreKept(states: seq<State>, actions: seq<Action>, k: nat, i: nat)
    requires Run(states, actions) && k < |states| && i < |states[k].streams|
    ensures Kept(states[k].streams[i])
  {
    RunHolds(states, actions, k);
    assert Tied(states[k].protocol, i, states[k].streams[i]);
    match states[k].streams[i]
    case Rendering(render) => R.InvKept(render);
    case Capturing(capture) => C.InvKept(capture);
  }

  /** A slot is cleared only while no push, read or write is in the middle of it. */
  lemma {:induction false} ClearingFindsRest(states: seq<State>, actions: seq<Action>, k: nat, a: P.Agent)
    requires Run(states, actions) && k < |states|
    requires a in states[k].protocol.agents && P.Resets(states[k].protocol.agents[a].phase)
    ensures var i := states[k].protocol.agents[a].slot;
            i < |states[k].streams| && HandleAtRest(states[k].streams[i]) && GraphAtRest(states[k].streams[i])
  {
    RunHolds(states, actions, k);
    ResetFindsRest(states[k], a);
  }
}
