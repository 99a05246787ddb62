/** ControlSession: the transactional state machine over the current preset and the published graph. The
    virtual endpoint registry is a parameter: whether it accepts the request. */
module ControlSession {
  import opened Basics
  import opened Preset
  import opened ControlCommand
  import opened PresetGraph
  import Graph

  datatype Problem =
    | OfCommand(refusal: Refusal)
    | OfBuild(error: Preset.Error)
    | RegistryRefused | NeedsService
    | EmptyBatchId | EmptyBatch | UnsupportedBatchCommand

  datatype Reply =
    | Accepted
    | Rejected(problems: seq<Problem>)
    | DiagnosticsReply
    | GraphReply(graph: Graph.GraphValue)
    | PresetReply(preset: Document)
    | SessionReply(document: Document, active: Graph.GraphValue, nextVersion: u64)
    | DeviceListReply

  /** A session as a value; the published graph follows from it. */
  datatype State = State(preset: Document, next: u64)

  function CommandProblems(reasons: seq<Refusal>): (p: seq<Problem>)
    ensures |p| == |reasons|
  {
    seq(|reasons|, k requires 0 <= k < |reasons| => OfCommand(reasons[k]))
  }

  function BuildProblems(errors: seq<Preset.Error>): (p: seq<Problem>)
    ensures |p| == |errors|
  {
    seq(|errors|, k requires 0 <= k < |errors| => OfBuild(errors[k]))
  }

  /** The version of the graph that was published last: versions are 64 bits wide and wrap. */
  function Previous(next: u64): u64 {
    if next == 0 then U64_MAX else next - 1
  }

  function After(next: u64): u64 {
    (next + 1) % U64_MODULUS
  }

  /** The invariant of a session: its preset can be built, and version zero was never published. */
  predicate Sound(s: State) {
    Buildable(s.preset) && s.next != 1
  }

  function Published(s: State): Graph.GraphValue
    requires Sound(s)
  {
    GraphOf(s.preset, Previous(s.next))
  }

  /** prepare_preset_update(): the preset to commit, or why there is none. */
  datatype Prepared = Ready(preset: Document) | NotReady(problems: seq<Problem>)

  function TryBuild(s: State, d: Document): Prepared {
    if GraphErrors(d, s.next) != [] then NotReady(BuildProblems(GraphErrors(d, s.next))) else Ready(d)
  }

  function Prepare(s: State, c: Command): Prepared {
    match Apply(s.preset, c)
    case Refused(reasons) => NotReady(CommandProblems(reasons))
    case Next(d) => TryBuild(s, d)
  }

  /** commit_preset_update() */
  function Committed(s: State, p: Prepared): State {
    if p.Ready? then State(p.preset, After(s.next)) else s
  }

  function Answer(p: Prepared): Reply {
    if p.Ready? then Accepted else Rejected(p.problems)
  }

  predicate IsRuntimeCommand(kind: Kind) {
    || kind == QueryAudioRuntime || kind == StartAudioRuntime || kind == StopAudioRuntime || kind == ConfigureAudioRuntime
    || kind == QueryVirtualAsioDevices || kind == ConfigureVirtualAsioDevices
  }

  /** What handle() prepares; a command that asks for no change prepares nothing. */
  function PrepareOne(s: State, c: Command): Prepared {
    if CommandReasons(c) != [] then NotReady(CommandProblems(CommandReasons(c)))
    else if Mutates(c.kind) then Prepare(s, c) else NotReady([])
  }

  /** The answer to a valid command that asks for no change. */
  function QueryReply(s: State, kind: Kind, registryAccepts: bool): Reply
    requires Sound(s)
  {
    if IsRuntimeCommand(kind) then Rejected([NeedsService])
    else match kind
      case QueryDiagnostics => DiagnosticsReply
      case QueryActiveGraph => GraphReply(Published(s))
      case SavePreset => PresetReply(s.preset)
      case QuerySessionState =>
        if registryAccepts then SessionReply(s.preset, Published(s), s.next) else Rejected([RegistryRefused])
      case ListDevices => if registryAccepts then DeviceListReply else Rejected([RegistryRefused])
      case _ => if registryAccepts then Accepted else Rejected([RegistryRefused])
  }

  /** The answer of handle(). */
  function ReplyTo(s: State, c: Command, registryAccepts: bool): Reply
    requires Sound(s)
  {
    if CommandReasons(c) != [] || Mutates(c.kind) then Answer(PrepareOne(s, c)) else QueryReply(s, c.kind, registryAccepts)
  }

  /** What one command of a batch makes of the preset. */
  function BatchStep(p: Document, c: Command): Prepared {
    if CommandReasons(c) != [] then NotReady(CommandProblems(CommandReasons(c)))
    else if !Mutates(c.kind) then NotReady([UnsupportedBatchCommand])
    else match Apply(p, c)
      case Refused(reasons) => NotReady(CommandProblems(reasons))
      case Next(d) => Ready(d)
  }

  type PresetStep = (Document, Command) -> Prepared

  /** Commands applied from left to right, all of them or none. */
  function Fold(step: PresetStep, p: Document, commands: seq<Command>): Prepared
    decreases |commands|
  {
    if commands == [] then Ready(p)
    else match step(p, commands[0])
      case NotReady(problems) => NotReady(problems)
      case Ready(d) => Fold(step, d, commands[1..])
  }

  /** handle_batch(): what it prepares. */
  function PrepareBatch(s: State, id: Text, commands: seq<Command>): Prepared {
    if id == [] then NotReady([EmptyBatchId])
    else if commands == [] then NotReady([EmptyBatch])
    else match Fold(BatchStep, s.preset, commands)
      case NotReady(problems) => NotReady(problems)
      case Ready(d) => TryBuild(s, d)
  }

  /** The command through which a batch publishes its preset. */
  function PublishCommand(id: Text, preset: Document): Command {
    Command(1, id, LoadPreset, [], [], [], [], 0, false, preset,
            AudioRuntime.Configuration(AudioRuntime.NoRuntime, [], [], [], [], 0, 0, [], []), [])
  }

  lemma PublishIsValid(id: Text, d: Document)
    requires id != [] && Valid(d)
    ensures CommandReasons(PublishCommand(id, d)) == []
  {
    ValidIff(d);
    assert PresetReasons(Errors(d)) == [];
  }

  lemma PublishingPrepares(s: State, id: Text, d: Document)
    requires id != [] && Valid(d)
    ensures Prepare(s, PublishCommand(id, d)) == TryBuild(s, d)
  {
    PublishIsValid(id, d);
  }

  lemma {:induction false} FoldIsValid(step: PresetStep, p: Document, commands: seq<Command>)
    requires commands != [] && Fold(step, p, commands).Ready?
    requires forall q, c :: step(q, c).Ready? ==> Valid(step(q, c).preset)
    ensures Valid(Fold(step, p, commands).preset)
    decreases |commands|
  {
    if |commands| > 1 {
      FoldIsValid(step, step(p, commands[0]).preset, commands[1..]);
    } else {
      assert Fold(step, p, commands) == step(p, commands[0]);
    }
  }

  lemma BatchIsValid(p: Document, commands: seq<Command>)
    requires commands != [] && Fold(BatchStep, p, commands).Ready?
    ensures Valid(Fold(BatchStep, p, commands).preset)
  {
    forall q: Document, c: Command | BatchStep(q, c).Ready? ensures Valid(BatchStep(q, c).preset) {
      AppliedIsValid(q, c);
    }
    FoldIsValid(BatchStep, p, commands);
  }

  lemma BuiltIsBuildable(s: State, d: Document)
    requires TryBuild(s, d).Ready?
    ensures Buildable(d) && s.next != 0
  {
    BuildableIff(d, s.next);
  }

  lemma CommittedIsSound(s: State, d: Document)
    requires Buildable(d) && s.next != 0
    ensures Sound(State(d, After(s.next)))
    ensures Published(State(d, After(s.next))) == GraphOf(d, s.next)
  {
  }

  class ControlSession {
    var currentPreset: Document
    var published: Graph.Graph
    var nextGraphVersion: u64

    function AsState(): State
      reads this
    {
      State(currentPreset, nextGraphVersion)
    }

    /** The published graph is the graph of the current preset, under the version before the next. */
    ghost predicate Valid()
      reads this, published, published.owned
    {
      Sound(AsState()) && published.Valid() && published.AsValue() == Published(AsState())
    }

    constructor (preset: Document, graph: Graph.Graph, nextGraphVersion: u64)
      requires Sound(State(preset, nextGraphVersion))
      requires graph.Valid() && graph.AsValue() == Published(State(preset, nextGraphVersion))
      ensures Valid() && AsState() == State(preset, nextGraphVersion) && published == graph
    {
      this.currentPreset, this.published, this.nextGraphVersion := preset, graph, nextGraphVersion;
    }

    /** create() */
    static method Create(preset: Document, version: u64) returns (session: ControlSession?, errors: seq<Preset.Error>)
      ensures errors == GraphErrors(preset, version) && (session == null <==> errors != [])
      ensures session != null ==> fresh(session) && session.Valid() && session.AsState() == State(preset, After(version))
    {
      var graph;
      graph, errors := BuildPresetGraph(preset, version);
      if graph == null {
        return null, errors;
      }
      CommittedIsSound(State(preset, version), preset);
      session := new ControlSession(preset, graph, After(version));
    }

    /** prepare_preset_update() and commit_preset_update() for one command. */
    method Update(c: Command) returns (reply: Reply)
      requires Valid()
      modifies this
      ensures Valid() && AsState() == Committed(old(AsState()), Prepare(old(AsState()), c))
      ensures reply == Answer(Prepare(old(AsState()), c))
    {
      var applied := ApplyCommand(currentPreset, c);
      if applied.Refused? {
        return Rejected(CommandProblems(applied.reasons));
      }
      reply := BuildAndCommit(applied.document);
    }

    method BuildAndCommit(d: Document) returns (reply: Reply)
      requires Valid()
      modifies this
      ensures Valid() && AsState() == Committed(old(AsState()), TryBuild(old(AsState()), d))
      ensures reply == Answer(TryBuild(old(AsState()), d))
    {
      var graph, errors := BuildPresetGraph(d, nextGraphVersion);
      if graph == null {
        return Rejected(BuildProblems(errors));
      }
      Commit(d, graph);
      return Accepted;
    }

    /** commit_preset_update() */
    method Commit(d: Document, graph: Graph.Graph)
      requires Buildable(d) && nextGraphVersion != 0 && graph.Valid() && graph.AsValue() == GraphOf(d, nextGraphVersion)
      modifies this
      ensures Valid() && AsState() == State(d, After(old(nextGraphVersion)))
    {
      CommittedIsSound(AsState(), d);
      published := graph;
      currentPreset := d;
      nextGraphVersion := After(nextGraphVersion);
    }

    /** handle() */
    method Handle(c: Command, registryAccepts: bool) returns (reply: Reply)
      requires Valid()
      modifies this
      ensures Valid() && AsState() == Committed(old(AsState()), PrepareOne(old(AsState()), c))
      ensures reply == ReplyTo(old(AsState()), c, registryAccepts)
    {
      var reasons := ValidateCommand(c);
      if reasons != [] {
        return Rejected(CommandProblems(reasons));
      }
      if Mutates(c.kind) {
        reply := Update(c);
      } else {
        reply := Query(c.kind, registryAccepts);
      }
    }

    method Query(kind: Kind, registryAccepts: bool) returns (reply: Reply)
      requires Valid() && !Mutates(kind)
      ensures reply == QueryReply(AsState(), kind, registryAccepts)
    {
      if kind == QueryDiagnostics {
        return DiagnosticsReply;
      }
      if kind == QueryActiveGraph {
        return GraphReply(Published(AsState()));
      }
      if kind == SavePreset {
        return PresetReply(currentPreset);
      }
      if kind == QuerySessionState {
        return if registryAccepts then SessionReply(currentPreset, Published(AsState()), nextGraphVersion)
               else Rejected([RegistryRefused]);
      }
      if IsRuntimeCommand(kind) {
        return Rejected([NeedsService]);
      }
      if kind == ListDevices {
        return if registryAccepts then DeviceListReply else Rejected([RegistryRefused]);
      }
      return if registryAccepts then Accepted else Rejected([RegistryRefused]);
    }

    /** handle_batch() */
    method HandleBatch(id: Text, commands: seq<Command>) returns (reply: Reply)
      requires Valid()
      modifies this
      ensures Valid() && AsState() == Committed(old(AsState()), PrepareBatch(old(AsState()), id, commands))
      ensures reply == Answer(PrepareBatch(old(AsState()), id, commands))
    {
      if id == [] {
        return Rejected([EmptyBatchId]);
      }
      if commands == [] {
        return Rejected([EmptyBatch]);
      }
      var folded := FoldCommands(commands);
      if folded.NotReady? {
        return Rejected(folded.problems);
      }
      BatchIsValid(currentPreset, commands);
      PublishingPrepares(AsState(), id, folded.preset);
      reply := Update(PublishCommand(id, folded.preset));
    }

    method FoldCommands(commands: seq<Command>) returns (folded: Prepared)
      ensures folded == Fold(BatchStep, currentPreset, commands)
    {
      var next := currentPreset;
      for k := 0 to |commands|
        invariant Fold(BatchStep, currentPreset, commands) == Fold(BatchStep, next, commands[k..])
      {
        var step := ApplyInBatch(next, commands[k]);
        assert commands[k..][0] == commands[k] && commands[k..][1..] == commands[k + 1..];
        if step.NotReady? {
          return step;
        }
        next := step.preset;
      }
      return Ready(next);
    }
  }

  method ApplyInBatch(p: Document, c: Command) returns (step: Prepared)
    ensures step == BatchStep(p, c)
  {
    var reasons := ValidateCommand(c);
    if reasons != [] {
      return NotReady(CommandProblems(reasons));
    }
    if !Mutates(c.kind) {
      return NotReady([UnsupportedBatchCommand]);
    }
    var applied := ApplyCommand(p, c);
    if applied.Refused? {
      return NotReady(CommandProblems(applied.reasons));
    }
    return Ready(applied.document);
  }

  // Whole runs, for any way of preparing changes.

  datatype Operation = One(command: Command) | Batch(id: Text, commands: seq<Command>)

  type Preparation = (State, Operation) -> Prepared

  /** The state after a run of operations. */
  function Run(prepare: Preparation, s: State, operations: seq<Operation>): State
    decreases |operations|
  {
    if operations == [] then s else Run(prepare, Committed(s, prepare(s, operations[0])), operations[1..])
  }

  /** How many operations of a run changed the preset. */
  function Changes(prepare: Preparation, s: State, operations: seq<Operation>): nat
    decreases |operations|
  {
    if operations == [] then 0
    else (if prepare(s, operations[0]).Ready? then 1 else 0)
         + Changes(prepare, Committed(s, prepare(s, operations[0])), operations[1..])
  }

  /** Only presets that can be built, under a version other than zero, are prepared. */
  ghost predicate BuildsOnly(prepare: Preparation) {
    forall s, o :: Sound(s) && prepare(s, o).Ready? ==> Buildable(prepare(s, o).preset) && s.next != 0
  }

  /** What handle() and handle_batch() prepare. */
  function Attempt(s: State, o: Operation): Prepared {
    match o
    case One(c) => PrepareOne(s, c)
    case Batch(id, commands) => PrepareBatch(s, id, commands)
  }

  /** An operation that is accepted publishes the graph of the new preset under the next version. */
  lemma AcceptedIsBuilt(s: State, o: Operation)
    requires Attempt(s, o).Ready?
    ensures TryBuild(s, Attempt(s, o).preset) == Attempt(s, o)
    ensures Buildable(Attempt(s, o).preset) && s.next != 0
  {
    match o
    case One(c) => PreparedIsBuilt(s, c);
    case Batch(id, commands) => BuiltIsBuildable(s, Fold(BatchStep, s.preset, commands).preset);
  }

  lemma PreparedIsBuilt(s: State, c: Command)
    requires PrepareOne(s, c).Ready?
    ensures TryBuild(s, PrepareOne(s, c).preset) == PrepareOne(s, c)
    ensures Buildable(PrepareOne(s, c).preset) && s.next != 0
  {
    BuiltIsBuildable(s, Apply(s.preset, c).document);
  }

  lemma AttemptBuildsOnly()
    ensures BuildsOnly(Attempt)
  {
    forall s, o | Sound(s) && Attempt(s, o).Ready? ensures Buildable(Attempt(s, o).preset) && s.next != 0 {
      AcceptedIsBuilt(s, o);
    }
  }

  /** In every run the published graph is the graph of the current preset. The versions count the accepted
      changes without a gap: they never wrap, for at version zero nothing is accepted any more. */
  lemma {:induction false} RunCountsVersions(prepare: Preparation, s: State, operations: seq<Operation>)
    requires BuildsOnly(prepare) && Sound(s) && s.next != 0
    ensures Sound(Run(prepare, s, operations))
    ensures s.next + Changes(prepare, s, operations) <= U64_MODULUS
    ensures Run(prepare, s, operations).next == (s.next + Changes(prepare, s, operations)) % U64_MODULUS
    decreases |operations|
  {
    if operations != [] {
      var p := prepare(s, operations[0]);
      var t := Committed(s, p);
      if t.next == 0 {
        NothingAtVersionZero(prepare, t, operations[1..]);
      } else {
        RunCountsVersions(prepare, t, operations[1..]);
      }
    }
  }

  /** Once the versions are used up, every change is refused. */
  lemma {:induction false} NothingAtVersionZero(prepare: Preparation, s: State, operations: seq<Operation>)
    requires BuildsOnly(prepare) && Sound(s) && s.next == 0
    ensures Run(prepare, s, operations) == s && Changes(prepare, s, operations) == 0
    decreases |operations|
  {
    if operations != [] {
      NothingAtVersionZero(prepare, s, operations[1..]);
    }
  }

  /** The two laws above, for the session. */
  lemma SessionRunsCountVersions(s: State, operations: seq<Operation>)
    requires Sound(s) && s.next != 0
    ensures var r, n := Run(Attempt, s, operations), Changes(Attempt, s, operations);
            Sound(r) && s.next + n <= U64_MODULUS && r.next == (s.next + n) % U64_MODULUS
  {
    AttemptBuildsOnly();
    RunCountsVersions(Attempt, s, operations);
  }

  // A batch of route edits against the same commands one by one.

  predicate EditsRoutes(kind: Kind) {
    kind == ConnectRoute || kind == DisconnectRoute || kind == SetGain || kind == SetMute
  }

  function Singly(commands: seq<Command>): (o: seq<Operation>)
    ensures |o| == |commands| && forall k :: 0 <= k < |o| ==> o[k] == One(commands[k])
  {
    seq(|commands|, k requires 0 <= k < |commands| => One(commands[k]))
  }

  /** A route edit alone is prepared exactly when it is accepted in a batch, with the same preset. */
  ghost predicate AgreesAt(step: PresetStep, prepare: Preparation, s: State, c: Command) {
    && (prepare(s, One(c)).Ready? <==> step(s.preset, c).Ready?)
    && (step(s.preset, c).Ready? ==>
          prepare(s, One(c)).preset == step(s.preset, c).preset && Buildable(step(s.preset, c).preset))
  }

  ghost predicate Agrees(step: PresetStep, prepare: Preparation) {
    forall s: State, c: Command :: Sound(s) && s.next != 0 && EditsRoutes(c.kind) ==> AgreesAt(step, prepare, s, c)
  }

  lemma EditsKeepBuildable(p: Document, c: Command)
    requires Buildable(p) && Apply(p, c).Next? && EditsRoutes(c.kind)
    ensures Buildable(Apply(p, c).document)
  {
    AppliedIsValid(p, c);
    AppliedIsEdited(p, c);
    EditedKeepsTheRest(p, c);
  }

  lemma AttemptAgreesAt(s: State, c: Command)
    requires Sound(s) && s.next != 0 && EditsRoutes(c.kind)
    ensures AgreesAt(BatchStep, Attempt, s, c)
  {
    if CommandReasons(c) == [] && Apply(s.preset, c).Next? {
      EditsKeepBuildable(s.preset, c);
      BuildableIff(Apply(s.preset, c).document, s.next);
    }
  }

  lemma {:induction false} FoldIsRun(step: PresetStep, prepare: Preparation, s: State, commands: seq<Command>)
    requires Agrees(step, prepare) && Sound(s) && 0 < s.next && s.next + |commands| < U64_MODULUS
    requires forall k :: 0 <= k < |commands| ==> EditsRoutes(commands[k].kind)
    ensures Fold(step, s.preset, commands).Ready? <==> Changes(prepare, s, Singly(commands)) == |commands|
    ensures Fold(step, s.preset, commands).Ready? ==>
              Fold(step, s.preset, commands).preset == Run(prepare, s, Singly(commands)).preset
    decreases |commands|
  {
    if commands != [] {
      var c, rest := commands[0], commands[1..];
      assert Singly(commands)[1..] == Singly(rest);
      assert AgreesAt(step, prepare, s, c);
      var t := Committed(s, prepare(s, One(c)));
      ChangesAtMost(prepare, t, Singly(rest));
      if step(s.preset, c).Ready? {
        FoldIsRun(step, prepare, t, rest);
      }
    }
  }

  lemma {:induction false} ChangesAtMost(prepare: Preparation, s: State, operations: seq<Operation>)
    ensures Changes(prepare, s, operations) <= |operations|
    decreases |operations|
  {
    if operations != [] {
      ChangesAtMost(prepare, Committed(s, prepare(s, operations[0])), operations[1..]);
    }
  }

  /** A batch of route edits is accepted exactly when its commands would all be accepted one by one, and
      leads to the same preset; only it takes one version instead of one for each command. */
  lemma BatchIsSequence(s: State, commands: seq<Command>)
    requires Sound(s) && 0 < s.next && s.next + |commands| < U64_MODULUS
    requires forall k :: 0 <= k < |commands| ==> EditsRoutes(commands[k].kind)
    ensures Fold(BatchStep, s.preset, commands).Ready? <==> Changes(Attempt, s, Singly(commands)) == |commands|
    ensures Fold(BatchStep, s.preset, commands).Ready? ==>
              Fold(BatchStep, s.preset, commands).preset == Run(Attempt, s, Singly(commands)).preset
  {
    forall t: State, c: Command | Sound(t) && t.next != 0 && EditsRoutes(c.kind) ensures AgreesAt(BatchStep, Attempt, t, c) {
      AttemptAgreesAt(t, c);
    }
    FoldIsRun(BatchStep, Attempt, s, commands);
  }
}
