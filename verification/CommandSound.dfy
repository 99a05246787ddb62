/** What route commands do to the sound of a preset. */
module CommandSound {
  import opened Basics
  import opened Preset
  import opened ControlCommand
  import opened AudioBlock
  import PresetGraph

  /** What one hears of a preset at output `o`: silence, if there is no such output. */
  function Hears(p: Document, input: Block, o: nat, f: nat): real {
    if o < |p.outputs| then PresetGraph.RouteSum(p.inputs, p.outputs[o].id, p.routes, input, f) else 0.0
  }

  /** Muting a route sounds the same as disconnecting it, at every output and on every block. */
  lemma MutingSoundsLikeDisconnecting(p: Document, mute: Command, disconnect: Command, input: Block, o: nat, f: nat)
    requires Valid(p) && Exists(p, mute)
    requires mute.kind == SetMute && mute.mute && CommandReasons(mute) == []
    requires disconnect.kind == DisconnectRoute && CommandReasons(disconnect) == []
    requires disconnect.input == mute.input && disconnect.output == mute.output
    ensures Apply(p, mute).Next? && Apply(p, disconnect).Next?
    ensures Hears(Apply(p, mute).document, input, o, f) == Hears(Apply(p, disconnect).document, input, o, f)
  {
    hide Apply, CommandReasons, Edited, Valid, Find, Hears;
    OnlyConnectIsRefusedAfterwards(p, mute);
    OnlyConnectIsRefusedAfterwards(p, disconnect);
    EditsSoundAlike(p, mute, disconnect, input, o, f);
  }

  lemma EditsSoundAlike(p: Document, mute: Command, disconnect: Command, input: Block, o: nat, f: nat)
    requires Exists(p, mute) && mute.kind == SetMute && mute.mute && disconnect.kind == DisconnectRoute
    requires disconnect.input == mute.input && disconnect.output == mute.output
    ensures Hears(Edited(p, mute), input, o, f) == Hears(Edited(p, disconnect), input, o, f)
  {
    if o < |p.outputs| {
      PresetGraph.MutedSoundsLikeNone(p.inputs, p.outputs[o].id, p.routes, Find(p.routes, mute.input, mute.output), input, f);
    }
  }

  /** Connecting a route adds its contribution to its output and changes no other output. */
  lemma ConnectingAddsARoute(p: Document, c: Command, input: Block, o: nat, f: nat)
    requires Valid(p) && c.kind == ConnectRoute && Apply(p, c).Next? && o < |p.outputs|
    ensures var q := Apply(p, c).document;
            Hears(q, input, o, f) == Hears(p, input, o, f)
            + PresetGraph.Term(p.inputs, p.outputs[o].id, Route(c.input, c.output, c.gain, false), input, f)
  {
    AppliedIsEdited(p, c);
    var r := Route(c.input, c.output, c.gain, false);
    assert (p.routes + [r])[..|p.routes|] == p.routes;
  }

  /** Replacing a route replaces its contribution. */
  lemma {:induction false} ReplacedTerm(inputs: seq<Endpoint>, output: Text, routes: seq<Route>, k: nat, r: Route, input: Block, f: nat)
    requires k < |routes|
    ensures PresetGraph.RouteSum(inputs, output, routes[k := r], input, f)
         == PresetGraph.RouteSum(inputs, output, routes, input, f)
            - PresetGraph.Term(inputs, output, routes[k], input, f) + PresetGraph.Term(inputs, output, r, input, f)
  {
    hide PresetGraph.Term;
    var n, changed := |routes| - 1, routes[k := r];
    if k == n {
      assert changed[..n] == routes[..n];
    } else {
      ReplacedTerm(inputs, output, routes[..n], k, r, input, f);
      assert changed[..n] == routes[..n][k := r];
    }
  }

  /** Setting a gain replaces the contribution of that route, and so leaves every other output alone; a
      muted route stays silent. */
  lemma SettingAGainReplacesItsTerm(p: Document, c: Command, input: Block, o: nat, f: nat)
    requires Valid(p) && c.kind == SetGain && CommandReasons(c) == [] && Exists(p, c) && o < |p.outputs|
    ensures Apply(p, c).Next?
    ensures var q, was := Apply(p, c).document, p.routes[Find(p.routes, c.input, c.output)];
            Hears(q, input, o, f) == Hears(p, input, o, f)
            - PresetGraph.Term(p.inputs, p.outputs[o].id, was, input, f)
            + PresetGraph.Term(p.inputs, p.outputs[o].id, Route(c.input, c.output, c.gain, was.muted), input, f)
  {
    hide Apply, CommandReasons, Valid, Find, PresetGraph.Term, PresetGraph.RouteSum;
    OnlyConnectIsRefusedAfterwards(p, c);
    var k := Find(p.routes, c.input, c.output);
    ReplacedTerm(p.inputs, p.outputs[o].id, p.routes, k, p.routes[k].(gain := c.gain), input, f);
  }

  /** Unmuting undoes muting: the document is the one before, if the route was not muted to begin with. */
  lemma UnmutingUndoesMuting(p: Document, mute: Command, unmute: Command)
    requires Valid(p) && mute.kind == SetMute && mute.mute && CommandReasons(mute) == [] && Exists(p, mute)
    requires unmute.kind == SetMute && !unmute.mute && CommandReasons(unmute) == []
    requires unmute.input == mute.input && unmute.output == mute.output
    ensures Apply(p, mute).Next?
    ensures Apply(Apply(p, mute).document, unmute).Next?
    ensures Apply(Apply(p, mute).document, unmute).document == p <==> !p.routes[Find(p.routes, mute.input, mute.output)].muted
  {
    var k := Find(p.routes, mute.input, mute.output);
    EditTwice(p, mute, unmute);
    hide Apply, CommandReasons, Edited, Valid, Find;
    OnlyConnectIsRefusedAfterwards(p, mute);
    AppliedIsValid(p, mute);
    OnlyConnectIsRefusedAfterwards(Edited(p, mute), unmute);
    Restored(p, k);
  }

  lemma EditTwice(p: Document, mute: Command, unmute: Command)
    requires mute.kind == SetMute && mute.mute && Exists(p, mute)
    requires unmute.kind == SetMute && !unmute.mute && unmute.input == mute.input && unmute.output == mute.output
    ensures var k := Find(p.routes, mute.input, mute.output);
            && Exists(Edited(p, mute), unmute)
            && Edited(Edited(p, mute), unmute) == p.(routes := p.routes[k := p.routes[k].(muted := false)])
  {
    var k := Find(p.routes, mute.input, mute.output);
    SameFind(p.routes, k, p.routes[k].(muted := true), mute.input, mute.output);
  }

  lemma Restored(p: Document, k: nat)
    requires k < |p.routes|
    ensures p.(routes := p.routes[k := p.routes[k].(muted := false)]) == p <==> !p.routes[k].muted
  {
    var routes := p.routes[k := p.routes[k].(muted := false)];
    assert routes[k].muted == false;
    if !p.routes[k].muted {
      assert routes == p.routes;
    }
  }

  lemma SameFind(routes: seq<Route>, k: nat, r: Route, input: Text, output: Text)
    requires k < |routes| && k == Find(routes, input, output) && SamePair(r, routes[k])
    ensures Find(routes[k := r], input, output) == k
  {
    var changed := routes[k := r];
    assert changed[k] == r;
  }

  /** The sound of the graph built from a preset is the sound of its routes. */
  lemma GraphHears(p: Document, version: u64, input: Block, channels: nat, frames: nat, o: nat, f: nat)
    requires PresetGraph.Buildable(p) && o < |p.outputs| && o < channels && f < frames
    ensures At(PresetGraph.Heard(PresetGraph.GraphOf(p, version), input, channels, frames), o, f) == Hears(p, input, o, f)
  {
    PresetGraph.SoundOfGraph(p, version, input, channels, frames, o, f);
  }
}
