/** Control commands: validate_command() and apply_command(). */
module ControlCommand {
  import opened Basics
  import opened Preset
  import AudioRuntime

  datatype Kind =
    | ListDevices | CreateVirtualEndpoint | RemoveVirtualEndpoint
    | ConnectRoute | DisconnectRoute | SetGain | SetMute
    | LoadPreset | SavePreset
    | QueryDiagnostics | QueryActiveGraph | QuerySessionState
    | QueryAudioRuntime | StartAudioRuntime | StopAudioRuntime | ConfigureAudioRuntime
    | QueryVirtualAsioDevices | ConfigureVirtualAsioDevices

  const MAX_VIRTUAL_ASIO_DEVICES: nat := 16

  datatype VirtualAsioDevice = VirtualAsioDevice(
    deviceId: Text,
    clsid: Text,
    registryName: Text,
    brokerToken: Text,
    inputChannels: u32,
    outputChannels: u32,
    enabled: bool)

  datatype Command = Command(
    schemaVersion: u32,
    commandId: Text,
    kind: Kind,
    endpointId: Text,
    endpointName: Text,
    input: Text,
    output: Text,
    gain: u32,
    mute: bool,
    preset: Document,
    audioRuntime: AudioRuntime.Configuration,
    devices: seq<VirtualAsioDevice>)

  datatype Refusal =
    | OfPreset(error: Preset.Error)
    | OfRuntime(runtimeError: AudioRuntime.Error)
    | BadSchemaVersion | NoCommandId | NoRouteInput | NoRouteOutput | BadGain
    | BadDeviceCount | NoEndpointId | NoEndpointLabel
    | RouteExists | NoSuchRoute

  datatype Applied = Next(document: Document) | Refused(reasons: seq<Refusal>)

  function Whenever(condition: bool, reason: Refusal): seq<Refusal> {
    if condition then [reason] else []
  }

  function PresetReasons(errors: seq<Preset.Error>): (r: seq<Refusal>)
    ensures |r| == |errors|
  {
    seq(|errors|, k requires 0 <= k < |errors| => OfPreset(errors[k]))
  }

  function RuntimeReasons(errors: seq<AudioRuntime.Error>): (r: seq<Refusal>)
    ensures |r| == |errors|
  {
    seq(|errors|, k requires 0 <= k < |errors| => OfRuntime(errors[k]))
  }

  function BindingReasons(c: Command): seq<Refusal> {
    Whenever(c.input == [], NoRouteInput) + Whenever(c.output == [], NoRouteOutput)
  }

  /** What validate_command() reports. */
  function CommandReasons(c: Command): seq<Refusal> {
    Whenever(c.schemaVersion == 0, BadSchemaVersion) + Whenever(c.commandId == [], NoCommandId) + KindReasons(c)
  }

  function KindReasons(c: Command): seq<Refusal> {
    match c.kind
    case ConfigureVirtualAsioDevices =>
      Whenever(c.devices == [] || |c.devices| > MAX_VIRTUAL_ASIO_DEVICES, BadDeviceCount)
    case ConfigureAudioRuntime => RuntimeReasons(AudioRuntime.Errors(c.audioRuntime, false))
    case CreateVirtualEndpoint => Whenever(c.endpointId == [], NoEndpointId) + Whenever(c.endpointName == [], NoEndpointLabel)
    case RemoveVirtualEndpoint => Whenever(c.endpointId == [], NoEndpointId)
    case ConnectRoute => BindingReasons(c) + Whenever(!Finite32(c.gain), BadGain)
    case SetGain => BindingReasons(c) + Whenever(!Finite32(c.gain), BadGain)
    case DisconnectRoute => BindingReasons(c)
    case SetMute => BindingReasons(c)
    case LoadPreset => PresetReasons(Errors(c.preset))
    case _ => []
  }

  method ValidateCommand(c: Command) returns (reasons: seq<Refusal>)
    ensures reasons == CommandReasons(c)
  {
    reasons := Whenever(c.schemaVersion == 0, BadSchemaVersion) + Whenever(c.commandId == [], NoCommandId);
    match c.kind
    case ConfigureAudioRuntime =>
      var errors := AudioRuntime.Validate(c.audioRuntime, false);
      reasons := reasons + RuntimeReasons(errors);
    case LoadPreset =>
      var errors := Preset.Validate(c.preset);
      reasons := reasons + PresetReasons(errors);
    case _ =>
      reasons := reasons + KindReasons(c);
  }

  /** control_command_mutates_preset() */
  predicate Mutates(kind: Kind) {
    kind == ConnectRoute || kind == DisconnectRoute || kind == SetGain || kind == SetMute || kind == LoadPreset
  }

  /** The first route between the two ids from position `k` on; the length of the list if there is none. */
  function Find(routes: seq<Route>, input: Text, output: Text): (k: nat)
    ensures k <= |routes|
    ensures k < |routes| ==> routes[k].input == input && routes[k].output == output
    ensures forall j :: 0 <= j < k ==> routes[j].input != input || routes[j].output != output
  {
    if routes == [] || (routes[0].input == input && routes[0].output == output) then 0
    else 1 + Find(routes[1..], input, output)
  }

  predicate Exists(p: Document, c: Command) {
    Find(p.routes, c.input, c.output) < |p.routes|
  }

  /** The document after the edit a command asks for, before it is validated again. A command that is
      no edit, or finds no route, leaves it alone. */
  function Edited(p: Document, c: Command): Document {
    var k := Find(p.routes, c.input, c.output);
    if c.kind == ConnectRoute then p.(routes := p.routes + [Route(c.input, c.output, c.gain, false)])
    else if k == |p.routes| then p
    else match c.kind
      case DisconnectRoute => p.(routes := p.routes[..k] + p.routes[k + 1..])
      case SetGain => p.(routes := p.routes[k := p.routes[k].(gain := c.gain)])
      case SetMute => p.(routes := p.routes[k := p.routes[k].(muted := c.mute)])
      case _ => p
  }

  /** The refusals of the edit itself. */
  function EditReasons(p: Document, c: Command): seq<Refusal> {
    match c.kind
    case ConnectRoute => Whenever(Exists(p, c), RouteExists)
    case DisconnectRoute => Whenever(!Exists(p, c), NoSuchRoute)
    case SetGain => Whenever(!Exists(p, c), NoSuchRoute)
    case SetMute => Whenever(!Exists(p, c), NoSuchRoute)
    case _ => []
  }

  /** The outcome of apply_command(). */
  function Apply(p: Document, c: Command): Applied {
    if CommandReasons(c) != [] then Refused(CommandReasons(c))
    else if c.kind == LoadPreset then Next(c.preset)
    else if Errors(p) != [] then Refused(PresetReasons(Errors(p)))
    else if EditReasons(p, c) != [] then Refused(EditReasons(p, c))
    else Revalidated(Edited(p, c))
  }

  /** The validation that follows the edit. */
  function Revalidated(q: Document): Applied {
    if Errors(q) != [] then Refused(PresetReasons(Errors(q))) else Next(q)
  }

  method Revalidate(q: Document) returns (result: Applied)
    ensures result == Revalidated(q)
  {
    var errors := Preset.Validate(q);
    result := if errors != [] then Refused(PresetReasons(errors)) else Next(q);
  }

  method FindRoute(routes: seq<Route>, input: Text, output: Text) returns (k: nat)
    ensures k == Find(routes, input, output)
  {
    k := 0;
    while k < |routes| && (routes[k].input != input || routes[k].output != output)
      invariant k <= |routes| && forall j :: 0 <= j < k ==> routes[j].input != input || routes[j].output != output
    {
      k := k + 1;
    }
  }

  /** The switch of apply_command(): the local copy after the edit, or why there is none. */
  method Edit(current: Document, c: Command) returns (next: Document, reasons: seq<Refusal>)
    ensures reasons == EditReasons(current, c)
    ensures reasons == [] ==> next == Edited(current, c)
  {
    next, reasons := current, [];
    match c.kind
    case ConnectRoute =>
      var k := FindRoute(next.routes, c.input, c.output);
      if k != |next.routes| {
        return next, [RouteExists];
      }
      next := next.(routes := next.routes + [Route(c.input, c.output, c.gain, false)]);
    case DisconnectRoute =>
      var k := FindRoute(next.routes, c.input, c.output);
      if k == |next.routes| {
        return next, [NoSuchRoute];
      }
      next := next.(routes := next.routes[..k] + next.routes[k + 1..]);
    case SetGain =>
      var k := FindRoute(next.routes, c.input, c.output);
      if k == |next.routes| {
        return next, [NoSuchRoute];
      }
      next := next.(routes := next.routes[k := next.routes[k].(gain := c.gain)]);
    case SetMute =>
      var k := FindRoute(next.routes, c.input, c.output);
      if k == |next.routes| {
        return next, [NoSuchRoute];
      }
      next := next.(routes := next.routes[k := next.routes[k].(muted := c.mute)]);
    case _ =>
  }

  /** apply_command() */
  method ApplyCommand(current: Document, c: Command) returns (result: Applied)
    ensures result == Apply(current, c)
    ensures result.Next? ==> Valid(result.document)
  {
    if Apply(current, c).Next? {
      AppliedIsValid(current, c);
    }
    var reasons := ValidateCommand(c);
    if reasons != [] {
      return Refused(reasons);
    }
    if c.kind == LoadPreset {
      return Next(c.preset);
    }
    var errors := Preset.Validate(current);
    if errors != [] {
      return Refused(PresetReasons(errors));
    }
    var next;
    next, reasons := Edit(current, c);
    if reasons != [] {
      return Refused(reasons);
    }
    result := Revalidate(next);
  }

  lemma LoadedIsValid(c: Command)
    requires c.kind == LoadPreset && CommandReasons(c) == []
    ensures Valid(c.preset)
  {
    ValidIff(c.preset);
    assert |CommandReasons(c)| >= |KindReasons(c)|;
  }

  /** Whatever a command leads to is valid. */
  lemma AppliedIsValid(p: Document, c: Command)
    requires Apply(p, c).Next?
    ensures Valid(Apply(p, c).document)
  {
    if c.kind == LoadPreset {
      LoadedIsValid(c);
    } else {
      ValidIff(Edited(p, c));
    }
  }

  lemma AppliedIsEdited(p: Document, c: Command)
    requires Apply(p, c).Next? && c.kind != LoadPreset
    ensures Apply(p, c).document == Edited(p, c)
  {
  }

  lemma EditedKeepsTheRest(p: Document, c: Command)
    ensures Edited(p, c) == p.(routes := Edited(p, c).routes)
  {
  }

  // What the validation after the edit can still refuse.

  lemma SameEndpointsSameHeader(p: Document, q: Document)
    requires Valid(p) && q == p.(routes := q.routes) && |q.routes| <= MAX_ROUTES
    requires BoundRoutes(q) && Distinct(Keys(q.routes))
    ensures Valid(q)
  {
  }

  lemma DistinctAfterRemoval(keys: seq<Text>, k: nat)
    requires Distinct(keys) && k < |keys|
    ensures Distinct(keys[..k] + keys[k + 1..])
  {
  }

  lemma RemovalKeepsBound(p: Document, q: Document, k: nat)
    requires BoundRoutes(p) && k < |p.routes| && q == p.(routes := p.routes[..k] + p.routes[k + 1..])
    ensures BoundRoutes(q)
  {
    forall j | 0 <= j < |q.routes| ensures Bound(q, q.routes[j]) {
      assert Bound(p, p.routes[if j < k then j else j + 1]);
    }
  }

  lemma RemovalKeepsValid(p: Document, k: nat)
    requires Valid(p) && k < |p.routes|
    ensures Valid(p.(routes := p.routes[..k] + p.routes[k + 1..]))
  {
    var q := p.(routes := p.routes[..k] + p.routes[k + 1..]);
    RemovalKeepsBound(p, q, k);
    DistinctAfterRemoval(Keys(p.routes), k);
    assert Keys(q.routes) == Keys(p.routes)[..k] + Keys(p.routes)[k + 1..];
    SameEndpointsSameHeader(p, q);
  }

  lemma ChangeKeepsValid(p: Document, k: nat, r: Route)
    requires Valid(p) && k < |p.routes| && SamePair(r, p.routes[k]) && Finite32(r.gain)
    ensures Valid(p.(routes := p.routes[k := r]))
  {
    var q := p.(routes := p.routes[k := r]);
    assert Keys(q.routes) == Keys(p.routes);
    forall j | 0 <= j < |q.routes| ensures Bound(q, q.routes[j]) {
      assert Bound(p, p.routes[j]);
    }
    SameEndpointsSameHeader(p, q);
  }

  /** A command other than ConnectRoute that finds its route is never refused by the validation that
      follows the edit. */
  lemma OnlyConnectIsRefusedAfterwards(p: Document, c: Command)
    requires Valid(p) && CommandReasons(c) == [] && EditReasons(p, c) == [] && c.kind != ConnectRoute && c.kind != LoadPreset
    ensures Apply(p, c) == Next(Edited(p, c))
  {
    EditKeepsValid(p, c);
    EditOutcome(p, c);
  }

  lemma EditOutcome(p: Document, c: Command)
    requires Valid(p) && CommandReasons(c) == [] && EditReasons(p, c) == [] && c.kind != LoadPreset
    ensures Apply(p, c) == Revalidated(Edited(p, c))
    ensures Apply(p, c).Next? <==> Valid(Edited(p, c))
    ensures Apply(p, c).Next? ==> Apply(p, c).document == Edited(p, c)
  {
    ValidIff(p);
    ValidIff(Edited(p, c));
  }

  lemma EditKeepsValid(p: Document, c: Command)
    requires Valid(p) && CommandReasons(c) == [] && EditReasons(p, c) == [] && c.kind != ConnectRoute
    ensures Valid(Edited(p, c))
  {
    var k := Find(p.routes, c.input, c.output);
    match c.kind {
      case DisconnectRoute => RemovalKeepsValid(p, k);
      case SetGain =>
        GainIsFinite(c);
        ChangeKeepsValid(p, k, p.routes[k].(gain := c.gain));
      case SetMute =>
        assert Bound(p, p.routes[k]);
        ChangeKeepsValid(p, k, p.routes[k].(muted := c.mute));
      case _ =>
    }
  }

  lemma GainIsFinite(c: Command)
    requires c.kind == SetGain || c.kind == ConnectRoute
    requires CommandReasons(c) == []
    ensures Finite32(c.gain) && c.input != [] && c.output != []
  {
    assert |CommandReasons(c)| >= |BindingReasons(c)| + |Whenever(!Finite32(c.gain), BadGain)|;
    assert |BindingReasons(c)| == |Whenever(c.input == [], NoRouteInput)| + |Whenever(c.output == [], NoRouteOutput)|;
  }

  /** ConnectRoute succeeds exactly when both ids are known endpoints, no route joins them yet, and no
      existing route is shifted against the new one. */
  lemma ConnectSucceedsIff(p: Document, c: Command)
    requires Valid(p) && CommandReasons(c) == [] && c.kind == ConnectRoute
    ensures Apply(p, c).Next? <==>
            && !Exists(p, c)
            && c.input in EndpointIds(p.inputs) && c.output in EndpointIds(p.outputs)
            && Unshifted(p.routes, Route(c.input, c.output, c.gain, false))
  {
    GainIsFinite(c);
    ConnectOutcome(p, c);
    if !Exists(p, c) {
      ConnectedIsValidIff(p, Route(c.input, c.output, c.gain, false));
    }
  }

  lemma ConnectOutcome(p: Document, c: Command)
    requires Valid(p) && CommandReasons(c) == [] && c.kind == ConnectRoute
    ensures Apply(p, c).Next? <==> !Exists(p, c) && Valid(Edited(p, c))
    ensures Apply(p, c).Next? ==> Apply(p, c).document == Edited(p, c)
  {
    ValidIff(p);
    if !Exists(p, c) {
      EditOutcome(p, c);
    }
  }

  lemma ConnectedIsValidIff(p: Document, r: Route)
    requires Valid(p) && r.input != [] && r.output != [] && Finite32(r.gain)
    requires forall k :: 0 <= k < |p.routes| ==> !SamePair(p.routes[k], r)
    ensures Valid(p.(routes := p.routes + [r])) <==>
            r.input in EndpointIds(p.inputs) && r.output in EndpointIds(p.outputs) && Unshifted(p.routes, r)
  {
    var q := p.(routes := p.routes + [r]);
    ConnectedRoutesBound(p, r);
    if BoundRoutes(q) {
      ConnectedKeysDistinct(p, r);
      if Unshifted(p.routes, r) {
        ConnectedRoutesFit(p, r);
      }
    }
  }

  predicate Unshifted(routes: seq<Route>, r: Route) {
    forall k :: 0 <= k < |routes| ==> !Shifted(routes[k], r) && !Shifted(r, routes[k])
  }

  lemma ConnectedRoutesBound(p: Document, r: Route)
    requires BoundRoutes(p) && r.input != [] && r.output != [] && Finite32(r.gain)
    ensures BoundRoutes(p.(routes := p.routes + [r])) <==> r.input in EndpointIds(p.inputs) && r.output in EndpointIds(p.outputs)
  {
    var q := p.(routes := p.routes + [r]);
    assert q.routes[|p.routes|] == r;
    forall k | 0 <= k < |p.routes| ensures Bound(q, q.routes[k]) {
      assert Bound(p, p.routes[k]);
    }
  }

  lemma ConnectedKeysDistinct(p: Document, r: Route)
    requires BoundRoutes(p.(routes := p.routes + [r])) && Distinct(Keys(p.routes))
    requires forall k :: 0 <= k < |p.routes| ==> !SamePair(p.routes[k], r)
    ensures Distinct(Keys(p.routes + [r])) <==> Unshifted(p.routes, r)
  {
    var q := p.(routes := p.routes + [r]);
    var keys := Keys(q.routes);
    assert Bound(q, q.routes[|p.routes|]);
    forall k | 0 <= k < |p.routes|
      ensures keys[k] == keys[|p.routes|] <==> Shifted(p.routes[k], r) || Shifted(r, p.routes[k])
    {
      assert Bound(q, q.routes[k]);
      SameKeyIff(p.routes[k], r);
    }
    forall j, k | 0 <= j < k < |p.routes| ensures keys[j] != keys[k] {
      assert Keys(p.routes)[j] != Keys(p.routes)[k];
    }
  }

  /** The route limit is no obstacle: distinct crosspoints never exceed it. */
  lemma ConnectedRoutesFit(p: Document, r: Route)
    requires Valid(p) && BoundRoutes(p.(routes := p.routes + [r]))
    requires Distinct(Keys(p.routes + [r]))
    ensures |p.routes + [r]| <= MAX_ROUTES
  {
    var q := p.(routes := p.routes + [r]);
    DuplicateCheckIsExact(q);
    CrosspointsBoundRoutes(q);
    Area(|q.outputs|, |q.inputs|);
  }

  /** Disconnecting undoes connecting. */
  lemma DisconnectUndoesConnect(p: Document, c: Command, d: Command)
    requires Valid(p) && c.kind == ConnectRoute && Apply(p, c).Next?
    requires d.kind == DisconnectRoute && d.input == c.input && d.output == c.output && CommandReasons(d) == []
    ensures Apply(Apply(p, c).document, d) == Next(p)
  {
    AppliedIsValid(p, c);
    ConnectOutcome(p, c);
    var r := Route(c.input, c.output, c.gain, false);
    FoundAtTheEnd(p.routes, r);
    OnlyConnectIsRefusedAfterwards(Apply(p, c).document, d);
  }

  lemma FoundAtTheEnd(routes: seq<Route>, r: Route)
    requires Find(routes, r.input, r.output) == |routes|
    ensures Find(routes + [r], r.input, r.output) == |routes|
    ensures (routes + [r])[..|routes|] + (routes + [r])[|routes| + 1..] == routes
  {
    assert (routes + [r])[|routes|] == r;
  }
}
