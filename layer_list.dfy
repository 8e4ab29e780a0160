/**
 * LayerList of src/Layers/LayerList.py: the layers, bottom first, and the
 * index of the active layer, which the list repairs when layers are
 * deleted. The GUI notifications are not modelled.
 */
module LayerLists {
  import opened Wrappers
  import opened Seqs
  import opened Layers

  class LayerList {
    var layers: seq<Layer>
    /** active_layer_idx; None is Python's None. */
    var activeIdx: Option<nat>

    /**
     * No active index only for an empty list; otherwise the index is in
     * range, except for the stale 0 that deleting the last layer leaves.
     */
    predicate Valid()
      reads this
    {
      match activeIdx
      case None => layers == []
      case Some(i) => i < |layers| || (layers == [] && i == 0)
    }

    /** The active layer object (the active_layer property), when the index points at one. */
    function ActiveLayer(): (a: Option<Layer>)
      reads this
      ensures a.Some? <==> activeIdx.Some? && activeIdx.value < |layers|
      ensures a.Some? ==> a.value in layers
    {
      if activeIdx.Some? && activeIdx.value < |layers| then Some(layers[activeIdx.value]) else None
    }

    constructor ()
      ensures Valid() && layers == [] && activeIdx == None
    {
      layers := [];
      activeIdx := None;
    }

    /**
     * get_layer_idx: the first position holding this very layer; None
     * where the source's next() raises StopIteration.
     */
    method GetLayerIdx(layer: Layer) returns (r: Option<nat>)
      ensures r.None? <==> layer !in layers
      ensures r.Some? ==> r.value < |layers| && layers[r.value] == layer && layer !in layers[..r.value]
    {
      var i := 0;
      while i < |layers|
        invariant i <= |layers|
        invariant layer !in layers[..i]
      {
        if layers[i] == layer {
          return Some(i);
        }
        assert layers[..i + 1] == layers[..i] + [layers[i]];
        i := i + 1;
      }
      assert layers[..i] == layers;
      return None;
    }

    /** delete_all_layers. */
    method DeleteAllLayers()
      modifies this
      ensures Valid() && layers == [] && activeIdx == None
    {
      layers := [];
      activeIdx := None;
    }

    /**
     * add_layer: the layer goes on top; it becomes active when asked to, or
     * when there was no active layer.
     */
    method AddLayer(layer: Layer, setActive: bool := false)
      requires Valid()
      modifies this
      ensures Valid()
      ensures layers == old(layers) + [layer]
      ensures activeIdx == if setActive || old(activeIdx).None? then Some(|old(layers)|) else old(activeIdx)
      ensures ActiveLayer() == Some(layer) <==> setActive || old(activeIdx).None? || old(layers) == [] || old(ActiveLayer()) == Some(layer)
    {
      layers := layers + [layer];
      if setActive || activeIdx.None? {
        activeIdx := Some(|layers| - 1);
      }
    }

    /**
     * set_active_layer: makes the first position of `layer` active. Fails,
     * changing nothing, where the source raises: no active index (TypeError),
     * an active index out of range (IndexError), or a layer not in the list
     * (StopIteration).
     */
    method SetActiveLayer(layer: Layer) returns (ok: bool)
      requires Valid()
      modifies this`activeIdx
      ensures Valid()
      ensures ok <==> old(activeIdx).Some? && old(activeIdx).value < |layers| && layer in layers
      ensures ok ==> activeIdx == Some(FirstIndex(layers, layer)) && ActiveLayer() == Some(layer)
      ensures !ok ==> activeIdx == old(activeIdx)
    {
      if activeIdx.None? || activeIdx.value >= |layers| {
        return false;
      }
      var i := GetLayerIdx(layer);
      if i.None? {
        return false;
      }
      FirstIndexUnique(layers, layer, i.value);
      activeIdx := i;
      ok := true;
    }

    /**
     * delete_layer: removes the first occurrence of `layer`, keeping the
     * others in order. When the active layer is deleted, the layer just
     * below it becomes active, or, if it was at the bottom, the top layer;
     * the last layer leaves a stale index 0. Deleting any other layer keeps
     * the same layer active. Fails, changing nothing, when the layer is not
     * in the list.
     */
    method DeleteLayer(layer: Layer) returns (ok: bool)
      requires Valid()
      modifies this
      ensures Valid()
      ensures ok <==> layer in old(layers)
      ensures !ok ==> layers == old(layers) && activeIdx == old(activeIdx)
      ensures ok ==> var i := FirstIndex(old(layers), layer);
                     layers == old(layers)[..i] + old(layers)[i + 1..]
      ensures ok && old(activeIdx) != Some(FirstIndex(old(layers), layer)) ==>
                ActiveLayer() == old(ActiveLayer())
      ensures ok && old(activeIdx) == Some(FirstIndex(old(layers), layer)) ==>
                var i, n := FirstIndex(old(layers), layer), |old(layers)|;
                && (i > 0 ==> ActiveLayer() == Some(old(layers)[i - 1]))
                && (i == 0 && n > 1 && old(layers)[n - 1] != layer ==> ActiveLayer() == Some(old(layers)[n - 1]))
                && (i == 0 && n > 1 && old(layers)[n - 1] == layer ==> activeIdx == Some(0))
                && (n == 1 ==> layers == [] && activeIdx == Some(0))
    {
      var found := GetLayerIdx(layer);
      if found.None? {
        return false;
      }
      var idx := found.value;
      ghost var was := layers;
      FirstIndexUnique(layers, layer, idx);
      if activeIdx == Some(idx) {
        if idx > 0 {
          var _ := SetActiveLayer(layers[idx - 1]);
        } else if |layers| > 1 {
          var _ := SetActiveLayer(layers[|layers| - 1]);
        }
      }
      if activeIdx.Some? && idx < activeIdx.value {
        activeIdx := Some(activeIdx.value - 1);
      }
      layers := layers[..idx] + layers[idx + 1..];
      ok := true;
    }
  }
}
