/** Real-time updates between graphs that were built from presets. */
module PresetUpdate {
  import opened Basics
  import opened AudioBlock
  import opened RouteMatrix
  import opened Preset
  import opened PresetGraph
  import opened GraphUpdate
  import G = Graph

  /** Both presets name their node and their endpoints alike. */
  predicate SameShape(p: Document, q: Document)
    requires Buildable(p) && Buildable(q)
  {
    p.nodes[0].id == q.nodes[0].id && SameIds(p.inputs, q.inputs) && SameIds(p.outputs, q.outputs)
  }

  /** The nodes of the graph of `p`, after an update from the graph of `q`. */
  function UpdatedEffects(p: Document, v: u64, q: Document, w: u64): seq<G.Effect>
    requires Buildable(p) && Buildable(q)
  {
    G.Updated(GraphOf(p, v).nodeIds, GraphOf(p, v).effects, GraphOf(q, w).nodeIds, GraphOf(q, w).effects)
  }

  predicate UpdateSucceeds(p: Document, v: u64, q: Document, w: u64)
    requires Buildable(p) && Buildable(q)
  {
    G.Accepts(GraphOf(p, v).nodeIds, GraphOf(p, v).effects, GraphOf(q, w).nodeIds, GraphOf(q, w).effects)
  }

  lemma OneNodeAgrees(a: G.Effect, b: G.Effect)
    ensures G.Agreeing([a], [b]) == if G.Agree(a, b) then 1 else 0
  {
  }

  /** The update succeeds exactly between presets of one shape. */
  lemma UpdateSucceedsIff(p: Document, v: u64, q: Document, w: u64)
    requires Buildable(p) && Buildable(q)
    ensures UpdateSucceeds(p, v, q, w) <==> SameShape(p, q)
  {
    var a, b := GraphOf(p, v), GraphOf(q, w);
    OneNodeAgrees(a.effects[0], b.effects[0]);
    assert a.nodeIds == b.nodeIds <==> p.nodes[0].id == q.nodes[0].id by {
      assert a.nodeIds[0] == p.nodes[0].id && b.nodeIds[0] == q.nodes[0].id;
    }
  }

  /** After an update that succeeds the target processes every block exactly like its source, whatever the
      labels, block sizes and sample rates of the presets. */
  lemma UpdatedPresetSoundsLikeSource(p: Document, v: u64, q: Document, w: u64, x: Block, channels: nat, frames: nat)
    requires Buildable(p) && Buildable(q) && UpdateSucceeds(p, v, q, w)
    ensures Heard(GraphOf(p, v).(effects := UpdatedEffects(p, v, q, w)), x, channels, frames)
         == Heard(GraphOf(q, w), x, channels, frames)
  {
    var a, b := GraphOf(p, v).effects, GraphOf(q, w).effects;
    var r := UpdatedEffects(p, v, q, w);
    assert a == [G.Routes(Built(p))] && b == [G.Routes(Built(q))];
    OneNodeAgrees(a[0], b[0]);
    TakenOverSoundsAlike(a, b, x, 1, 1, channels, frames);
    assert G.Through(r, x, 1, 1, channels, frames) == G.Through(b, x, 1, 1, channels, frames);
    OneNodeNeedsNoScratch(r, x, GraphOf(p, v).channels, GraphOf(p, v).frames, channels, frames);
    OneNodeNeedsNoScratch(b, x, GraphOf(q, w).channels, GraphOf(q, w).frames, channels, frames);
  }

  /** A graph of one node does not use its scratch buffers. */
  lemma OneNodeNeedsNoScratch(nodes: seq<G.Effect>, x: Block, scratchChannels: nat, scratchFrames: nat, channels: nat, frames: nat)
    requires |nodes| == 1
    ensures G.Through(nodes, x, scratchChannels, scratchFrames, channels, frames) == G.Through(nodes, x, 1, 1, channels, frames)
  {
  }

  /** So it is heard as the routes of the source's preset. */
  lemma UpdatedPresetSound(p: Document, v: u64, q: Document, w: u64, x: Block, channels: nat, frames: nat, o: nat, f: nat)
    requires Buildable(p) && Buildable(q) && UpdateSucceeds(p, v, q, w)
    requires o < |q.outputs| && o < channels && f < frames
    ensures At(Heard(GraphOf(p, v).(effects := UpdatedEffects(p, v, q, w)), x, channels, frames), o, f)
         == RouteSum(q.inputs, q.outputs[o].id, q.routes, x, f)
  {
    UpdatedPresetSoundsLikeSource(p, v, q, w, x, channels, frames);
    SoundOfGraph(q, w, x, channels, frames, o, f);
  }

  /** An update that is refused leaves the graph of a preset as it was. */
  lemma RefusedPresetIsUnchanged(p: Document, v: u64, q: Document, w: u64)
    requires Buildable(p) && Buildable(q) && !UpdateSucceeds(p, v, q, w)
    ensures UpdatedEffects(p, v, q, w) == GraphOf(p, v).effects
  {
    G.RefusedIsUnchangedIff(GraphOf(p, v).nodeIds, GraphOf(p, v).effects, GraphOf(q, w).nodeIds, GraphOf(q, w).effects);
  }

  /** apply_realtime_parameters_from() between two graphs that build_preset_graph() has built. */
  method UpdatePresetGraph(target: G.Graph, source: G.Graph, ghost p: Document, ghost v: u64, ghost q: Document, ghost w: u64)
    returns (ok: bool)
    requires target.Valid() && source.Valid() && target.owned !! source.owned
    requires Buildable(p) && target.AsValue() == GraphOf(p, v) && Buildable(q) && source.AsValue() == GraphOf(q, w)
    modifies target.owned
    ensures target.Valid() && source.Valid() && ok == SameShape(p, q)
    ensures !ok ==> target.AsValue() == GraphOf(p, v)
    ensures ok ==> forall x: Block, channels: nat, frames: nat ::
              Heard(target.AsValue(), x, channels, frames) == Heard(GraphOf(q, w), x, channels, frames)
  {
    UpdateSucceedsIff(p, v, q, w);
    if !UpdateSucceeds(p, v, q, w) {
      RefusedPresetIsUnchanged(p, v, q, w);
    }
    ok := target.ApplyRealtimeParametersFrom(source);
    assert target.AsValue() == GraphOf(p, v).(effects := UpdatedEffects(p, v, q, w));
    if ok {
      forall x: Block, channels: nat, frames: nat
        ensures Heard(target.AsValue(), x, channels, frames) == Heard(GraphOf(q, w), x, channels, frames)
      {
        UpdatedPresetSoundsLikeSource(p, v, q, w, x, channels, frames);
      }
    }
  }
}
