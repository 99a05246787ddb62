/** The claim and release protocol of the slots of the two Virtual ASIO buses: any number of agents
    attach, use their handle and detach; one graph-side thread walks the slots. One atomic operation
    per step, under sequential consistency (a modelling assumption). Generations are unbounded.

    An agent is a thread together with the one handle it may hold. On the capture bus the handle side
    raises a flag around its read; on the render bus push() raises none, and attach() and detach()
    wait for the graph side only. `handleFlagged` tells the two buses apart. */
module SlotProtocol {
  import opened Basics

  type Agent = nat

  datatype Slot = Slot(status: Status, generation: nat, graphFlag: bool, handleFlag: bool)

  /** Where the graph side stands in its walk over the slots: write() on the capture bus, read() on
      the render bus. `Busy` lies between its second state check and its flag clear. */
  datatype Graph =
    | Between
    | CheckingOnce(slot: nat)
    | Raising(slot: nat)
    | CheckingAgain(slot: nat)
    | Busy(slot: nat)
    | Lowering(slot: nat)

  /** The step an agent takes next. */
  datatype Phase =
    | Free
    // attach()
    | AttachWaiting
    | Searching
    | AttachSpinGraph
    | AttachSpinHandle
    | AttachResetRead
    | AttachResetWrite
    | AttachResetPending
    | DrawingGeneration
    | StoringGeneration
    | Activating
    | CountingUp
    | AttachUnlocking
    | AttachFailing
    // holding a handle
    | Attached
    | HandleCheck
    | HandleCheckGeneration
    | HandleRaise
    | HandleRecheck
    | HandleRecheckGeneration
    | HandleBusy
    | HandleLower
    // detach()
    | DetachWaiting
    | DetachChecking
    | Exchanging
    | DetachSpinGraph
    | DetachSpinHandle
    | DetachResetRead
    | DetachResetWrite
    | DetachResetPending
    | Idling
    | CountingDown
    | DetachUnlocking

  /** An agent's position: its phase, and the slot and generation its local variables name. */
  datatype Place = Place(phase: Phase, slot: nat, generation: nat)

  datatype State = State(
    handleFlagged: bool,
    slots: seq<Slot>,
    graph: Graph,
    agents: map<Agent, Place>,
    mutex: Option<Agent>,
    nextGeneration: nat,
    activeCount: int)

  datatype Action =
    | GraphVisit(slot: nat)
    | GraphStep
    | CallAttach(agent: Agent)
    | CallHandle(agent: Agent)
    | CallDetach(agent: Agent)
    | AgentStep(agent: Agent)

  /** The agent has taken the slot out of circulation: its status is Claiming. */
  predicate Claims(f: Phase) {
    f.AttachSpinGraph? || f.AttachSpinHandle? || f.AttachResetRead? || f.AttachResetWrite? || f.AttachResetPending?
    || f.DrawingGeneration? || f.StoringGeneration? || f.Activating?
    || f.DetachSpinGraph? || f.DetachSpinHandle? || f.DetachResetRead? || f.DetachResetWrite? || f.DetachResetPending?
    || f.Idling?
  }

  /** The agent owns the slot under its generation: the slot's status is Active. */
  predicate Owns(f: Phase) {
    f.CountingUp? || f.AttachUnlocking? || f.Attached? || f.HandleCheck? || f.HandleCheckGeneration? || f.HandleRaise?
    || f.HandleRecheck? || f.HandleRecheckGeneration? || f.HandleBusy? || f.HandleLower?
    || f.DetachWaiting? || f.DetachChecking? || f.Exchanging?
  }

  /** Steps taken while holding the attachment mutex. */
  predicate Locked(f: Phase) {
    Claims(f) || f.Searching? || f.CountingUp? || f.AttachUnlocking? || f.AttachFailing?
    || f.DetachChecking? || f.Exchanging? || f.CountingDown? || f.DetachUnlocking?
  }

  predicate Uses(f: Phase) {
    Claims(f) || Owns(f)
  }

  /** The steps that overwrite the indices and the pending FIFO of a slot. */
  predicate Resets(f: Phase) {
    f.AttachResetRead? || f.AttachResetWrite? || f.AttachResetPending?
    || f.DetachResetRead? || f.DetachResetWrite? || f.DetachResetPending?
  }

  /** The graph side has been seen outside this slot since the slot was claimed. */
  predicate PastGraphSpin(f: Phase) {
    Claims(f) && !f.AttachSpinGraph? && !f.DetachSpinGraph?
  }

  /** The handle side has its flag up (on the capture bus). */
  predicate Raised(f: Phase) {
    f.HandleRecheck? || f.HandleRecheckGeneration? || f.HandleBusy? || f.HandleLower?
  }

  /** detach() has taken the slot out of Active but not yet decremented the counter. */
  predicate Departing(f: Phase) {
    f.DetachSpinGraph? || f.DetachSpinHandle? || f.DetachResetRead? || f.DetachResetWrite? || f.DetachResetPending?
    || f.Idling? || f.CountingDown?
  }

  /** What one step of an agent does: its next place, the new content of the slot it works on, and
      its effect on the mutex, the generation counter and the active counter. */
  datatype Effect = Effect(place: Place, slot: Slot, locks: bool, unlocks: bool, draws: bool, delta: int)

  function To(p: Place, f: Phase, slot: Slot): Effect {
    Effect(p.(phase := f), slot, false, false, false, 0)
  }

  /** One atomic operation of attach(), of a use of the handle, or of detach(). A blocked or spinning
      step leaves everything as it is. */
  function EffectOf(flagged: bool, mutexFree: bool, next: nat, p: Place, slot: Slot): Effect {
    match p.phase
    case Free => To(p, Free, slot)
    case AttachWaiting => if mutexFree then Effect(Place(Searching, 0, 0), slot, true, false, false, 0) else To(p, AttachWaiting, slot)
    case Searching =>
      if slot.status == Idle then To(p, AttachSpinGraph, slot.(status := Claiming))
      else Effect(p.(slot := p.slot + 1), slot, false, false, false, 0)
    case AttachSpinGraph =>
      if slot.graphFlag then To(p, AttachSpinGraph, slot)
      else To(p, if flagged then AttachSpinHandle else AttachResetRead, slot)
    case AttachSpinHandle => To(p, if slot.handleFlag then AttachSpinGraph else AttachResetRead, slot)
    case AttachResetRead => To(p, AttachResetWrite, slot)
    case AttachResetWrite => To(p, AttachResetPending, slot)
    case AttachResetPending => To(p, DrawingGeneration, slot)
    case DrawingGeneration => Effect(Place(StoringGeneration, p.slot, next), slot, false, false, true, 0)
    case StoringGeneration => To(p, Activating, slot.(generation := p.generation))
    case Activating => To(p, CountingUp, slot.(status := Active))
    case CountingUp => Effect(p.(phase := AttachUnlocking), slot, false, false, false, 1)
    case AttachUnlocking => Effect(p.(phase := Attached), slot, false, true, false, 0)
    case AttachFailing => Effect(p.(phase := Free), slot, false, true, false, 0)
    case Attached => To(p, Attached, slot)
    case HandleCheck => To(p, if slot.status == Active then HandleCheckGeneration else Attached, slot)
    case HandleCheckGeneration =>
      To(p, if slot.generation != p.generation then Attached else if flagged then HandleRaise else HandleBusy, slot)
    case HandleRaise => To(p, HandleRecheck, slot.(handleFlag := true))
    case HandleRecheck => To(p, if slot.status == Active then HandleRecheckGeneration else HandleLower, slot)
    case HandleRecheckGeneration => To(p, if slot.generation == p.generation then HandleBusy else HandleLower, slot)
    case HandleBusy => To(p, if flagged then HandleLower else Attached, slot)
    case HandleLower => To(p, Attached, slot.(handleFlag := false))
    case DetachWaiting =>
      if mutexFree then Effect(p.(phase := DetachChecking), slot, true, false, false, 0) else To(p, DetachWaiting, slot)
    case DetachChecking => To(p, if slot.generation != p.generation then DetachUnlocking else Exchanging, slot)
    case Exchanging =>
      To(p, if slot.status != Active then DetachUnlocking else DetachSpinGraph, slot.(status := Claiming))
    case DetachSpinGraph =>
      if slot.graphFlag then To(p, DetachSpinGraph, slot)
      else To(p, if flagged then DetachSpinHandle else DetachResetRead, slot)
    case DetachSpinHandle => To(p, if slot.handleFlag then DetachSpinGraph else DetachResetRead, slot)
    case DetachResetRead => To(p, DetachResetWrite, slot)
    case DetachResetWrite => To(p, DetachResetPending, slot)
    case DetachResetPending => To(p, Idling, slot)
    case Idling => To(p, CountingDown, slot.(status := Idle))
    case CountingDown => Effect(p.(phase := DetachUnlocking), slot, false, false, false, -1)
    case DetachUnlocking => Effect(p.(phase := Free), slot, false, true, false, 0)
  }

  function Apply(s: State, a: Agent, e: Effect, i: nat): State
    requires i < |s.slots|
  {
    s.(slots := s.slots[i := e.slot],
       agents := s.agents[a := e.place],
       mutex := if e.locks then Some(a) else if e.unlocks then None else s.mutex,
       nextGeneration := if e.draws then s.nextGeneration + 1 else s.nextGeneration,
       activeCount := s.activeCount + e.delta)
  }

  /** The effect of agent `a`'s next step, when its slot exists. */
  function Next(s: State, a: Agent): Effect
    requires a in s.agents && s.agents[a].slot < |s.slots|
  {
    EffectOf(s.handleFlagged, s.mutex == None, s.nextGeneration, s.agents[a], s.slots[s.agents[a].slot])
  }

  function After(s: State, a: Agent): State
    requires a in s.agents && s.agents[a].slot < |s.slots|
  {
    Apply(s, a, Next(s, a), s.agents[a].slot)
  }

  /** The walk of the graph side over one slot. */
  function GraphNext(g: Graph, slot: Slot): (Graph, Slot)
    requires g != Between
  {
    var i := g.slot;
    match g
    case CheckingOnce(_) => (if slot.status == Active then Raising(i) else Between, slot)
    case Raising(_) => (CheckingAgain(i), slot.(graphFlag := true))
    case CheckingAgain(_) => (if slot.status == Active then Busy(i) else Lowering(i), slot)
    case Busy(_) => (Lowering(i), slot)
    case Lowering(_) => (Between, slot.(graphFlag := false))
  }

  ghost predicate Init(s: State) {
    && |s.slots| > 0
    && (forall i :: 0 <= i < |s.slots| ==> s.slots[i] == Slot(Idle, 0, false, false))
    && s.graph == Between
    && (forall a :: a in s.agents ==> s.agents[a] == Place(Free, 0, 0))
    && s.mutex == None && s.nextGeneration == 1 && s.activeCount == 0
  }

  ghost predicate Step(s: State, act: Action, n: State) {
    match act
    case GraphVisit(i) => s.graph == Between && i < |s.slots| && n == s.(graph := CheckingOnce(i))
    case GraphStep =>
      && s.graph != Between && s.graph.slot < |s.slots|
      && var r := GraphNext(s.graph, s.slots[s.graph.slot]);
         n == s.(graph := r.0, slots := s.slots[s.graph.slot := r.1])
    case CallAttach(a) => Calls(s, n, a, Free, AttachWaiting)
    case CallHandle(a) => Calls(s, n, a, Attached, HandleCheck)
    case CallDetach(a) => Calls(s, n, a, Attached, DetachWaiting)
    case AgentStep(a) =>
      && a in s.agents
      && if s.agents[a].slot < |s.slots| then n == After(s, a) else SearchFails(s, a, n)
  }

  /** attach() has tried every slot. */
  ghost predicate SearchFails(s: State, a: Agent, n: State) {
    && a in s.agents && s.agents[a].phase == Searching
    && n == s.(agents := s.agents[a := Place(AttachFailing, 0, 0)])
  }

  ghost predicate Calls(s: State, n: State, a: Agent, from: Phase, to: Phase) {
    a in s.agents && s.agents[a].phase == from && n == s.(agents := s.agents[a := s.agents[a].(phase := to)])
  }

  // ---- what one agent knows about its slot ----

  /** What an agent's place says about the slot it uses. */
  ghost predicate Local(flagged: bool, busy: bool, next: nat, p: Place, slot: Slot) {
    && (Claims(p.phase) ==> slot.status == Claiming && !slot.handleFlag)
    && (Owns(p.phase) ==>
          slot.status == Active && slot.generation == p.generation && slot.handleFlag == (flagged && Raised(p.phase)))
    && (p.phase.StoringGeneration? ==> 0 < p.generation < next)
    && (p.phase.Activating? ==> 0 < p.generation == slot.generation)
    && (PastGraphSpin(p.phase) ==> !busy)
    && (p.phase.HandleRaise? || p.phase.HandleRecheck? || p.phase.HandleRecheckGeneration? || p.phase.HandleLower? ==>
          flagged)
  }

  lemma {:induction false} ClaimKept(flagged: bool, mutexFree: bool, busy: bool, next: nat, p: Place, slot: Slot)
    requires Local(flagged, busy, next, p, slot)
    requires slot.status == Idle ==> !slot.handleFlag
    requires busy ==> slot.graphFlag
    ensures var e := EffectOf(flagged, mutexFree, next, p, slot);
            && (Claims(e.place.phase) ==> e.slot.status == Claiming && !e.slot.handleFlag)
            && (PastGraphSpin(e.place.phase) ==> !busy)
  {
  }

  lemma {:induction false} OwnershipKept(flagged: bool, mutexFree: bool, busy: bool, next: nat, p: Place, slot: Slot)
    requires Local(flagged, busy, next, p, slot)
    ensures var e := EffectOf(flagged, mutexFree, next, p, slot);
            Owns(e.place.phase) ==>
              && e.slot.status == Active && e.slot.generation == e.place.generation
              && e.slot.handleFlag == (flagged && Raised(e.place.phase))
  {
    hide PastGraphSpin;
    if Claims(p.phase) {
    } else if Owns(p.phase) {
    }
  }

  lemma {:induction false} LocalKept(flagged: bool, mutexFree: bool, busy: bool, next: nat, p: Place, slot: Slot)
    requires Local(flagged, busy, next, p, slot) && next > 0
    requires slot.status == Idle ==> !slot.handleFlag
    requires busy ==> slot.graphFlag
    ensures var e := EffectOf(flagged, mutexFree, next, p, slot);
            Local(flagged, busy, if e.draws then next + 1 else next, e.place, e.slot)
  {
    ClaimKept(flagged, mutexFree, busy, next, p, slot);
    OwnershipKept(flagged, mutexFree, busy, next, p, slot);
  }

  lemma {:induction false} LockChange(flagged: bool, mutexFree: bool, next: nat, p: Place, slot: Slot)
    ensures var e := EffectOf(flagged, mutexFree, next, p, slot);
            && (Locked(e.place.phase) <==> (Locked(p.phase) || e.locks) && !e.unlocks)
            && (e.locks ==> mutexFree && !Locked(p.phase)) && (e.unlocks ==> Locked(p.phase) && !e.locks)
  {
    if Claims(p.phase) {
    } else if Locked(p.phase) {
    }
  }

  lemma {:induction false} StatusChange(flagged: bool, mutexFree: bool, busy: bool, next: nat, p: Place, slot: Slot)
    requires Local(flagged, busy, next, p, slot)
    ensures var e := EffectOf(flagged, mutexFree, next, p, slot);
            && e.slot.graphFlag == slot.graphFlag
            && (Uses(e.place.phase) ==> e.place.slot == p.slot && (Uses(p.phase) || slot.status == Idle))
            && (!Uses(p.phase) && !Uses(e.place.phase) ==> e.slot == slot)
            && (Uses(p.phase) && !Uses(e.place.phase) ==> e.slot == slot.(status := Idle))
            && (e.slot.status == Idle ==> e.slot.handleFlag == slot.handleFlag && slot.status != Active)
  {
    hide PastGraphSpin;
    if Claims(p.phase) {
    } else if Owns(p.phase) {
    }
  }

  lemma {:induction false} GenerationChange(flagged: bool, mutexFree: bool, busy: bool, next: nat, p: Place, slot: Slot)
    requires Local(flagged, busy, next, p, slot)
    ensures var e := EffectOf(flagged, mutexFree, next, p, slot);
            && (e.place.phase.StoringGeneration? ==> e.draws && e.place.generation == next)
            && (e.draws ==> p.phase.DrawingGeneration?)
            && (e.slot.generation != slot.generation ==> p.phase.StoringGeneration? && e.slot.generation == p.generation)
            && (e.slot.status == Active ==> slot.status == Active || (p.phase.Activating? && e.slot.generation == slot.generation))
  {
    hide Local, Claims, Owns, PastGraphSpin, Raised;
  }

  lemma {:induction false} CountChange(flagged: bool, mutexFree: bool, busy: bool, next: nat, p: Place, slot: Slot)
    requires Local(flagged, busy, next, p, slot)
    ensures var e := EffectOf(flagged, mutexFree, next, p, slot);
            e.delta == Weight(e.slot) - Weight(slot) + Lag(e.place.phase) - Lag(p.phase)
  {
    if Claims(p.phase) {
    } else if Owns(p.phase) {
    }
  }

  function Weight(slot: Slot): int {
    if slot.status == Active then 1 else 0
  }

  /** How far the active counter is off while this agent is in the middle of attach() or detach(). */
  function Lag(f: Phase): int {
    if f.CountingUp? then -1 else if Departing(f) then 1 else 0
  }

  // ---- the global invariant ----

  ghost predicate MutexInv(s: State) {
    && (s.mutex.Some? ==> s.mutex.value in s.agents)
    && forall a :: a in s.agents ==> (Locked(s.agents[a].phase) <==> s.mutex == Some(a))
  }

  /** No two agents use one slot. */
  ghost predicate ExclusiveInv(s: State) {
    forall a, b :: a in s.agents && b in s.agents && a != b && Uses(s.agents[a].phase) && Uses(s.agents[b].phase) ==>
      s.agents[a].slot != s.agents[b].slot
  }

  ghost predicate PlaceInv(s: State, p: Place) {
    && (p.slot < |s.slots| || p.phase.Searching?)
    && (p.slot < |s.slots| ==> Local(s.handleFlagged, s.graph == Busy(p.slot), s.nextGeneration, p, s.slots[p.slot]))
  }

  ghost predicate PlacesInv(s: State) {
    forall a :: a in s.agents ==> PlaceInv(s, s.agents[a])
  }

  ghost predicate GraphInv(s: State) {
    && (s.graph != Between ==> s.graph.slot < |s.slots|)
    && forall i :: 0 <= i < |s.slots| ==>
         (s.slots[i].graphFlag <==> s.graph == CheckingAgain(i) || s.graph == Busy(i) || s.graph == Lowering(i))
  }

  /** Generations in use are older than the next one, and no two slots carry the same one (slots never
      attached all carry zero). */
  ghost predicate GenerationInv(s: State) {
    && s.nextGeneration > 0
    && (forall i :: 0 <= i < |s.slots| ==> s.slots[i].generation < s.nextGeneration)
    && (forall i, j :: 0 <= i < |s.slots| && 0 <= j < |s.slots| && i != j && s.slots[i].generation > 0 ==>
          s.slots[i].generation != s.slots[j].generation)
    && (forall i :: 0 <= i < |s.slots| && s.slots[i].status == Active ==> s.slots[i].generation > 0)
    && (forall a, i :: a in s.agents && s.agents[a].phase.StoringGeneration? && 0 <= i < |s.slots| ==>
          s.slots[i].generation != s.agents[a].generation)
  }

  /** A slot that is not Idle has an agent answering for it; an Idle one has its handle flag down. */
  ghost predicate UserInv(s: State) {
    forall i :: 0 <= i < |s.slots| ==>
      if s.slots[i].status == Idle then !s.slots[i].handleFlag
      else exists a :: a in s.agents && Uses(s.agents[a].phase) && s.agents[a].slot == i
  }

  function ActiveSlots(slots: seq<Slot>): nat {
    if slots == [] then 0
    else ActiveSlots(slots[..|slots| - 1]) + if slots[|slots| - 1].status == Active then 1 else 0
  }

  ghost predicate CountInv(s: State) {
    s.activeCount == ActiveSlots(s.slots) +
                     if s.mutex.Some? && s.mutex.value in s.agents then Lag(s.agents[s.mutex.value].phase) else 0
  }

  ghost predicate Inv(s: State) {
    && |s.slots| > 0
    && MutexInv(s) && ExclusiveInv(s) && PlacesInv(s) && GraphInv(s) && GenerationInv(s) && UserInv(s) && CountInv(s)
  }

  lemma {:induction false} NoneActive(slots: seq<Slot>)
    requires forall i :: 0 <= i < |slots| ==> slots[i].status == Idle
    ensures ActiveSlots(slots) == 0
  {
    if slots != [] {
      NoneActive(slots[..|slots| - 1]);
    }
  }

  /** Changing one slot changes the number of active slots by that slot alone. */
  lemma {:induction false} ActiveAfter(slots: seq<Slot>, i: nat, slot: Slot)
    requires i < |slots|
    ensures ActiveSlots(slots[i := slot]) == ActiveSlots(slots) - Weight(slots[i]) + Weight(slot)
  {
    var last := |slots| - 1;
    var after := slots[i := slot];
    if i < last {
      ActiveAfter(slots[..last], i, slot);
      assert after[..last] == slots[..last][i := slot];
    } else {
      assert after[..last] == slots[..last];
    }
  }

  lemma {:induction false} InitHolds(s: State)
    requires Init(s)
    ensures Inv(s)
  {
    NoneActive(s.slots);
  }

  lemma {:induction false} MutexHolds(s: State, a: Agent)
    requires MutexInv(s) && a in s.agents && s.agents[a].slot < |s.slots|
    ensures MutexInv(After(s, a))
  {
    var p := s.agents[a];
    LockChange(s.handleFlagged, s.mutex == None, s.nextGeneration, p, s.slots[p.slot]);
  }

  lemma {:induction false} StatusChangeOf(s: State, a: Agent)
    requires PlacesInv(s) && a in s.agents && s.agents[a].slot < |s.slots|
    ensures var p, slot, e := s.agents[a], s.slots[s.agents[a].slot], Next(s, a);
            && e.slot.graphFlag == slot.graphFlag
            && (Uses(e.place.phase) ==> e.place.slot == p.slot && (Uses(p.phase) || slot.status == Idle))
            && (!Uses(p.phase) && !Uses(e.place.phase) ==> e.slot == slot)
            && (Uses(p.phase) && !Uses(e.place.phase) ==> e.slot == slot.(status := Idle))
            && (e.slot.status == Idle ==> e.slot.handleFlag == slot.handleFlag && slot.status != Active)
  {
    var p := s.agents[a];
    assert PlaceInv(s, p);
    StatusChange(s.handleFlagged, s.mutex == None, s.graph == Busy(p.slot), s.nextGeneration, p, s.slots[p.slot]);
  }

  /** A slot some agent uses is not Idle. */
  lemma UsedIsNotIdle(s: State, a: Agent)
    requires PlacesInv(s) && a in s.agents && Uses(s.agents[a].phase)
    ensures s.agents[a].slot < |s.slots| && s.slots[s.agents[a].slot].status != Idle
  {
    assert PlaceInv(s, s.agents[a]);
  }

  lemma {:induction false} ExclusiveHolds(s: State, a: Agent)
    requires PlacesInv(s) && ExclusiveInv(s) && a in s.agents && s.agents[a].slot < |s.slots|
    ensures ExclusiveInv(After(s, a))
  {
    StatusChangeOf(s, a);
    forall b | b in s.agents && b != a && Uses(s.agents[b].phase)
      ensures Uses(Next(s, a).place.phase) ==> Next(s, a).place.slot != s.agents[b].slot
    {
      UsedIsNotIdle(s, b);
    }
  }

  lemma {:induction false} OtherPlaceHolds(s: State, a: Agent, b: Agent)
    requires PlacesInv(s) && ExclusiveInv(s) && a in s.agents && b in s.agents && a != b && s.agents[a].slot < |s.slots|
    ensures PlaceInv(After(s, a), s.agents[b])
  {
    var n := After(s, a);
    var p := s.agents[b];
    assert PlaceInv(s, p);
    if p.slot < |s.slots| && p.slot == s.agents[a].slot && Uses(p.phase) {
      UsedIsNotIdle(s, b);
      StatusChangeOf(s, a);
      assert n.slots[p.slot] == s.slots[p.slot];
    }
  }

  lemma {:induction false} PlacesHold(s: State, a: Agent)
    requires Inv(s) && a in s.agents && s.agents[a].slot < |s.slots|
    ensures PlacesInv(After(s, a))
  {
    hide MutexInv, ExclusiveInv, CountInv;
    var p, n := s.agents[a], After(s, a);
    assert PlaceInv(s, p);
    LocalKept(s.handleFlagged, s.mutex == None, s.graph == Busy(p.slot), s.nextGeneration, p, s.slots[p.slot]);
    StatusChangeOf(s, a);
    forall b | b in n.agents
      ensures PlaceInv(n, n.agents[b])
    {
      if b != a {
        OtherPlaceHolds(s, a, b);
      }
    }
  }

  lemma {:induction false} GenerationHolds(s: State, a: Agent)
    requires Inv(s) && a in s.agents && s.agents[a].slot < |s.slots|
    ensures GenerationInv(After(s, a))
  {
    hide EffectOf, ExclusiveInv, UserInv, CountInv, GraphInv;
    var p, n := s.agents[a], After(s, a);
    assert PlaceInv(s, p);
    GenerationChange(s.handleFlagged, s.mutex == None, s.graph == Busy(p.slot), s.nextGeneration, p, s.slots[p.slot]);
    forall b | b in n.agents && n.agents[b].phase.StoringGeneration?
      ensures forall i :: 0 <= i < |n.slots| ==> n.slots[i].generation != n.agents[b].generation
    {
      if b != a {
        assert Locked(s.agents[b].phase) && !Locked(p.phase);
      }
    }
  }

  lemma {:induction false} UsersHold(s: State, a: Agent)
    requires Inv(s) && a in s.agents && s.agents[a].slot < |s.slots|
    ensures GraphInv(After(s, a)) && UserInv(After(s, a))
  {
    var p, n := s.agents[a], After(s, a);
    StatusChangeOf(s, a);
    forall i | 0 <= i < |n.slots| && n.slots[i].status != Idle
      ensures exists b :: b in n.agents && Uses(n.agents[b].phase) && n.agents[b].slot == i
    {
      if Uses(n.agents[a].phase) && n.agents[a].slot == i {
      } else {
        assert s.slots[i].status != Idle;
        var b :| b in s.agents && Uses(s.agents[b].phase) && s.agents[b].slot == i;
        assert n.agents[b] == s.agents[b];
      }
    }
  }

  lemma {:induction false} CountHolds(s: State, a: Agent)
    requires Inv(s) && a in s.agents && s.agents[a].slot < |s.slots|
    ensures CountInv(After(s, a))
  {
    var p, n := s.agents[a], After(s, a);
    assert PlaceInv(s, p);
    CountChange(s.handleFlagged, s.mutex == None, s.graph == Busy(p.slot), s.nextGeneration, p, s.slots[p.slot]);
    LockChange(s.handleFlagged, s.mutex == None, s.nextGeneration, p, s.slots[p.slot]);
    ActiveAfter(s.slots, p.slot, n.slots[p.slot]);
  }

  lemma {:induction false} AgentHolds(s: State, a: Agent)
    requires Inv(s) && a in s.agents && s.agents[a].slot < |s.slots|
    ensures Inv(After(s, a))
  {
    MutexHolds(s, a);
    ExclusiveHolds(s, a);
    PlacesHold(s, a);
    GenerationHolds(s, a);
    UsersHold(s, a);
    CountHolds(s, a);
  }

  /** UserInv depends only on the statuses, the handle flags and who uses which slot. */
  lemma {:induction false} UserCarries(s: State, n: State)
    requires UserInv(s) && |n.slots| == |s.slots| && n.agents.Keys == s.agents.Keys
    requires forall k :: 0 <= k < |s.slots| ==>
               n.slots[k].status == s.slots[k].status && n.slots[k].handleFlag == s.slots[k].handleFlag
    requires forall b :: b in s.agents && Uses(s.agents[b].phase) ==>
               Uses(n.agents[b].phase) && n.agents[b].slot == s.agents[b].slot
    ensures UserInv(n)
  {
    forall k | 0 <= k < |n.slots| && n.slots[k].status != Idle
      ensures exists b :: b in n.agents && Uses(n.agents[b].phase) && n.agents[b].slot == k
    {
      var b :| b in s.agents && Uses(s.agents[b].phase) && s.agents[b].slot == k;
      assert Uses(n.agents[b].phase) && n.agents[b].slot == k;
    }
  }

  /** The agent moves on without touching a slot, the mutex or a counter. */
  ghost predicate Moves(s: State, a: Agent, p: Place) {
    && a in s.agents && PlaceInv(s, p)
    && var o := s.agents[a];
       && Locked(o.phase) == Locked(p.phase) && Uses(o.phase) == Uses(p.phase) && Lag(o.phase) == Lag(p.phase)
       && (Uses(p.phase) ==> o.slot == p.slot) && !p.phase.StoringGeneration?
  }

  lemma {:induction false} MoveKeepsLocks(s: State, a: Agent, p: Place)
    requires MutexInv(s) && ExclusiveInv(s) && CountInv(s) && Moves(s, a, p)
    ensures var n := s.(agents := s.agents[a := p]); MutexInv(n) && ExclusiveInv(n) && CountInv(n)
  {
  }

  lemma {:induction false} MoveKeepsPlaces(s: State, a: Agent, p: Place)
    requires PlacesInv(s) && GraphInv(s) && GenerationInv(s) && UserInv(s) && Moves(s, a, p)
    ensures var n := s.(agents := s.agents[a := p]); PlacesInv(n) && GraphInv(n) && GenerationInv(n) && UserInv(n)
  {
    var n := s.(agents := s.agents[a := p]);
    forall b | b in n.agents
      ensures PlaceInv(n, n.agents[b])
    {
      assert PlaceInv(s, n.agents[b]);
    }
    UserCarries(s, n);
  }

  lemma {:induction false} MoveHolds(s: State, a: Agent, p: Place)
    requires Inv(s) && Moves(s, a, p)
    ensures Inv(s.(agents := s.agents[a := p]))
  {
    MoveKeepsLocks(s, a, p);
    MoveKeepsPlaces(s, a, p);
  }

  lemma {:induction false} CallHolds(s: State, n: State, a: Agent, from: Phase, to: Phase)
    requires Inv(s) && Calls(s, n, a, from, to)
    requires (from == Free && to == AttachWaiting) || (from == Attached && (to == HandleCheck || to == DetachWaiting))
    ensures Inv(n)
  {
    hide MutexInv, ExclusiveInv, GraphInv, GenerationInv, UserInv, CountInv;
    assert PlaceInv(s, s.agents[a]);
    MoveHolds(s, a, s.agents[a].(phase := to));
  }

  lemma {:induction false} GraphPlaces(s: State, g: Graph, slot: Slot)
    requires Inv(s) && s.graph != Between && (g, slot) == GraphNext(s.graph, s.slots[s.graph.slot])
    ensures PlacesInv(s.(graph := g, slots := s.slots[s.graph.slot := slot]))
  {
    var n := s.(graph := g, slots := s.slots[s.graph.slot := slot]);
    forall b | b in n.agents
      ensures PlaceInv(n, n.agents[b])
    {
      assert PlaceInv(s, s.agents[b]);
    }
  }

  lemma {:induction false} GraphSlots(s: State, g: Graph, slot: Slot)
    requires Inv(s) && s.graph != Between && (g, slot) == GraphNext(s.graph, s.slots[s.graph.slot])
    ensures var n := s.(graph := g, slots := s.slots[s.graph.slot := slot]);
            GraphInv(n) && GenerationInv(n) && CountInv(n)
  {
    hide MutexInv, ExclusiveInv, PlacesInv, UserInv;
    ActiveAfter(s.slots, s.graph.slot, slot);
  }

  lemma {:induction false} GraphHolds(s: State, g: Graph, slot: Slot)
    requires Inv(s) && s.graph != Between && (g, slot) == GraphNext(s.graph, s.slots[s.graph.slot])
    ensures Inv(s.(graph := g, slots := s.slots[s.graph.slot := slot]))
  {
    var n := s.(graph := g, slots := s.slots[s.graph.slot := slot]);
    GraphPlaces(s, g, slot);
    GraphSlots(s, g, slot);
    UserCarries(s, n);
  }

  lemma {:induction false} VisitHolds(s: State, i: nat)
    requires Inv(s) && s.graph == Between && i < |s.slots|
    ensures Inv(s.(graph := CheckingOnce(i)))
  {
    var n := s.(graph := CheckingOnce(i));
    forall b | b in n.agents
      ensures PlaceInv(n, n.agents[b])
    {
      assert PlaceInv(s, s.agents[b]);
    }
    UserCarries(s, n);
  }

  lemma {:induction false} SearchFailHolds(s: State, a: Agent, n: State)
    requires Inv(s) && SearchFails(s, a, n)
    ensures Inv(n)
  {
    MoveHolds(s, a, Place(AttachFailing, 0, 0));
  }

  lemma {:induction false} AgentStepHolds(s: State, a: Agent, n: State)
    requires Inv(s) && Step(s, AgentStep(a), n)
    ensures Inv(n)
  {
    if s.agents[a].slot < |s.slots| {
      AgentHolds(s, a);
    } else {
      SearchFailHolds(s, a, n);
    }
  }

  lemma {:induction false} GraphStepHolds(s: State, n: State)
    requires Inv(s) && Step(s, GraphStep, n)
    ensures Inv(n)
  {
    var r := GraphNext(s.graph, s.slots[s.graph.slot]);
    GraphHolds(s, r.0, r.1);
  }

  lemma {:induction false} StepHolds(s: State, act: Action, n: State)
    requires Inv(s) && Step(s, act, n)
    ensures Inv(n)
  {
    match act {
      case GraphVisit(i) => VisitHolds(s, i);
      case GraphStep => GraphStepHolds(s, n);
      case CallAttach(a) => CallHolds(s, n, a, Free, AttachWaiting);
      case CallHandle(a) => CallHolds(s, n, a, Attached, HandleCheck);
      case CallDetach(a) => CallHolds(s, n, a, Attached, DetachWaiting);
      case AgentStep(a) => AgentStepHolds(s, a, n);
    }
  }

  ghost predicate Run(states: seq<State>, actions: seq<Action>) {
    && |states| == |actions| + 1
    && Init(states[0])
    && forall k :: 0 <= k < |actions| ==> Step(states[k], actions[k], states[k + 1])
  }

  lemma {:induction false} RunHolds(states: seq<State>, actions: seq<Action>, k: nat)
    requires Run(states, actions) && k < |states|
    ensures Inv(states[k])
  {
    if k == 0 {
      InitHolds(states[0]);
    } else {
      RunHolds(states, actions, k - 1);
      StepHolds(states[k - 1], actions[k - 1], states[k]);
    }
  }

  /** A slot is never reset under anybody's feet: while attach() or detach() is about to overwrite its
      indices or pending FIFO, the graph side is not between its second state check and its flag
      clear on that slot, and no other agent is using the slot through a handle. */
  lemma {:induction false} ResetsAreExclusive(states: seq<State>, actions: seq<Action>, k: nat, a: Agent, b: Agent)
    requires Run(states, actions) && k < |states|
    requires a in states[k].agents && Resets(states[k].agents[a].phase)
    requires b in states[k].agents && Uses(states[k].agents[b].phase) && a != b
    ensures states[k].graph != Busy(states[k].agents[a].slot)
    ensures states[k].agents[b].slot != states[k].agents[a].slot
  {
    RunHolds(states, actions, k);
    assert PlaceInv(states[k], states[k].agents[a]);
  }

  /** When the graph side works on a slot, the slot was Active at its second check and cannot be reset
      before the flag is lowered. */
  lemma {:induction false} BusySlotIsNotReset(states: seq<State>, actions: seq<Action>, k: nat, a: Agent)
    requires Run(states, actions) && k < |states| && states[k].graph.Busy?
    requires a in states[k].agents && states[k].agents[a].slot == states[k].graph.slot
    ensures !Resets(states[k].agents[a].phase)
  {
    RunHolds(states, actions, k);
    assert PlaceInv(states[k], states[k].agents[a]);
  }

  /** A handle stays good until its own detach: its slot is Active under its generation, every check it
      makes succeeds, and detach() always finds it so; no slot is ever stranded in Claiming. */
  lemma {:induction false} HandlesStayValid(states: seq<State>, actions: seq<Action>, k: nat, a: Agent)
    requires Run(states, actions) && k < |states| && a in states[k].agents && Owns(states[k].agents[a].phase)
    ensures var p := states[k].agents[a];
            p.slot < |states[k].slots| && states[k].slots[p.slot].status == Active
            && states[k].slots[p.slot].generation == p.generation > 0
  {
    RunHolds(states, actions, k);
    assert PlaceInv(states[k], states[k].agents[a]);
  }

  lemma {:induction false} NoSlotIsStranded(states: seq<State>, actions: seq<Action>, k: nat, i: nat)
    requires Run(states, actions) && k < |states| && i < |states[k].slots| && states[k].slots[i].status == Claiming
    ensures exists a :: a in states[k].agents && Claims(states[k].agents[a].phase) && states[k].agents[a].slot == i
                        && states[k].mutex == Some(a)
  {
    RunHolds(states, actions, k);
    var s := states[k];
    var a :| a in s.agents && Uses(s.agents[a].phase) && s.agents[a].slot == i;
    assert PlaceInv(s, s.agents[a]);
  }

  /** Active slots carry distinct generations. */
  lemma {:induction false} GenerationsAreDistinct(states: seq<State>, actions: seq<Action>, k: nat, i: nat, j: nat)
    requires Run(states, actions) && k < |states| && i < |states[k].slots| && j < |states[k].slots| && i != j
    requires states[k].slots[i].status == Active && states[k].slots[j].status == Active
    ensures states[k].slots[i].generation != states[k].slots[j].generation
  {
    RunHolds(states, actions, k);
  }

  /** Whenever the attachment mutex is free, the active counter equals the number of Active slots. */
  lemma {:induction false} CounterIsExact(states: seq<State>, actions: seq<Action>, k: nat)
    requires Run(states, actions) && k < |states| && states[k].mutex == None
    ensures states[k].activeCount == ActiveSlots(states[k].slots)
  {
    RunHolds(states, actions, k);
  }
}
