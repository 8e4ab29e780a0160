/**
 * The rendering part of ImageProcessor (src/ImageProcessor.py): the
 * instruction loop of render_layers, the index arithmetic of
 * insert_empty_layer and the element loop of render_partial_layer.
 *
 * Blending two images (overlay_images) and stamping an element onto an
 * image (overlay_element_on_image) are float pixel arithmetic; they are
 * parameters here, so nothing is assumed about them.
 */
module Rendering {
  import opened Wrappers
  import opened Seqs
  import opened Images
  import opened Cache
  import opened Drawable
  import opened Layers
  import opened LayerLists

  /** An image as the renderer passes it around; a layer made without an image has None. */
  type Picture = Option<Image>

  /** overlay_images(bottom, top), defined on two images; given a missing image the source raises. */
  type Blend = (Image, Image) -> Image

  /**
   * overlay_element_on_image: the canvas, the element's image and its
   * transformation give the new canvas; for an element without an image the
   * source raises.
   */
  type Stamp = (Image, Image, Matrix) -> Image

  /** One overlay instruction: blend the image for `bottom` with the image for `top`. */
  datatype Instruction = Instruction(bottom: Key, top: Key)

  /** The key the result of an instruction is stored under: (*bottom, *top). */
  function Produced(ins: Instruction): Key
  {
    ins.bottom + ins.top
  }

  // ---------------------------------------------------------------------------
  // The render target and the layers' images

  /** The indices k.. of the visible layers, in increasing order. */
  function VisibleFrom(layers: seq<Layer>, k: nat): (t: Key)
    reads layers
    requires k <= |layers|
    ensures forall j :: 0 <= j < |t| ==> k <= t[j] < |layers|
    ensures StrictlyAscending(t)
    ensures forall i: nat :: i in t <==> k <= i < |layers| && layers[i].visible
    decreases |layers| - k
  {
    if k == |layers| then []
    else
      var rest := VisibleFrom(layers, k + 1);
      if layers[k].visible then [k] + rest else rest
  }

  /** layers_to_render: the tuple of indices of the visible layers. */
  function Visible(layers: seq<Layer>): (t: Key)
    reads layers
    ensures StrictlyAscending(t)
    ensures forall i: nat :: i in t <==> i < |layers| && layers[i].visible
  {
    VisibleFrom(layers, 0)
  }

  /** The final image of every layer, by index. */
  function FinalImages(layers: seq<Layer>): (finals: seq<Picture>)
    reads layers
    ensures |finals| == |layers|
    ensures forall i :: 0 <= i < |layers| ==> finals[i] == layers[i].finalImage
  {
    seq(|layers|, i reads layers requires 0 <= i < |layers| => layers[i].finalImage)
  }

  // ---------------------------------------------------------------------------
  // The instruction loop as a function of the cache contents

  /**
   * Where an operand comes from: a single layer index is read from the
   * layer list (IndexError when out of range), any other key from the cache
   * (KeyError when missing). A layer without a final image cannot be
   * blended (overlay_images raises). None stands for the error.
   */
  function Resolve(key: Key, finals: seq<Picture>, entries: map<Key, Entry<Image>>): Option<Image>
  {
    if |key| == 1 then (if key[0] < |finals| && finals[key[0]].Some? then Some(finals[key[0]].value) else None)
    else if key in entries then Some(entries[key].data)
    else None
  }

  /** The cache after some instructions ran, and whether all of them did. */
  datatype Outcome = Outcome(entries: map<Key, Entry<Image>>, ok: bool)

  /**
   * Runs the instructions in order, storing each blend under its produced
   * key; stops at the first operand that cannot be resolved, keeping what
   * was stored before it.
   */
  function Execute(instrs: seq<Instruction>, finals: seq<Picture>, entries: map<Key, Entry<Image>>,
                   blend: Blend, now: Timestamp): Outcome
    decreases |instrs|
  {
    if instrs == [] then Outcome(entries, true)
    else
      var b := Resolve(instrs[0].bottom, finals, entries);
      var t := Resolve(instrs[0].top, finals, entries);
      if b.None? || t.None? then Outcome(entries, false)
      else Execute(instrs[1..], finals, entries[Produced(instrs[0]) := Entry(blend(b.value, t.value), now, None)], blend, now)
  }

  /** The keys the instructions produce. */
  function ProducedKeys(instrs: seq<Instruction>): set<Key>
  {
    set j | 0 <= j < |instrs| :: Produced(instrs[j])
  }

  /** The keys the cache holds before instruction j: the ones it started with and the ones produced so far. */
  function Known(instrs: seq<Instruction>, j: nat, keys: set<Key>): set<Key>
    requires j <= |instrs|
  {
    keys + ProducedKeys(instrs[..j])
  }

  /** An operand can be read: a layer index in range whose layer has a final image, or a key the cache holds. */
  predicate Available(op: Key, finals: seq<Picture>, known: set<Key>)
  {
    if |op| == 1 then op[0] < |finals| && finals[op[0]].Some? else op in known
  }

  /**
   * The instruction list a planner must hand to render_layers: every
   * operand is a layer with an image, or is already cached, or is produced
   * by an earlier instruction.
   */
  predicate Planned(instrs: seq<Instruction>, finals: seq<Picture>, keys: set<Key>)
  {
    forall j :: 0 <= j < |instrs| ==>
      && Available(instrs[j].bottom, finals, Known(instrs, j, keys))
      && Available(instrs[j].top, finals, Known(instrs, j, keys))
  }

  // ---------------------------------------------------------------------------
  // Properties of the instruction loop

  /** The instructions run in list order: running a + b is running a, then b on what a left. */
  lemma {:induction false} ExecuteAppend(a: seq<Instruction>, b: seq<Instruction>, finals: seq<Picture>,
                                         entries: map<Key, Entry<Image>>, blend: Blend, now: Timestamp)
    ensures Execute(a + b, finals, entries, blend, now) ==
            var o := Execute(a, finals, entries, blend, now);
            if o.ok then Execute(b, finals, o.entries, blend, now) else o
    decreases |a|
  {
    if a == [] {
      assert a + b == b;
    } else {
      assert (a + b)[0] == a[0];
      assert (a + b)[1..] == a[1..] + b;
      var b0 := Resolve(a[0].bottom, finals, entries);
      var t0 := Resolve(a[0].top, finals, entries);
      if b0.Some? && t0.Some? {
        ExecuteAppend(a[1..], b, finals, entries[Produced(a[0]) := Entry(blend(b0.value, t0.value), now, None)], blend, now);
      }
    }
  }

  /** The keys produced by all but the first instruction are among the keys produced by all of them. */
  lemma ProducedKeysTail(instrs: seq<Instruction>)
    requires instrs != []
    ensures ProducedKeys(instrs) == {Produced(instrs[0])} + ProducedKeys(instrs[1..])
  {
    forall k | k in ProducedKeys(instrs)
      ensures k in {Produced(instrs[0])} + ProducedKeys(instrs[1..])
    {
      var j :| 0 <= j < |instrs| && Produced(instrs[j]) == k;
      if j > 0 {
        assert instrs[1..][j - 1] == instrs[j];
      }
    }
    forall k | k in ProducedKeys(instrs[1..])
      ensures k in ProducedKeys(instrs)
    {
      var j :| 0 <= j < |instrs[1..]| && Produced(instrs[1..][j]) == k;
      assert instrs[j + 1] == instrs[1..][j];
    }
  }

  /** A key that no instruction produces keeps its entry, or its absence. */
  lemma {:induction false} ExecuteFrame(instrs: seq<Instruction>, finals: seq<Picture>, entries: map<Key, Entry<Image>>,
                                        blend: Blend, now: Timestamp, k: Key)
    requires k !in ProducedKeys(instrs)
    ensures var o := Execute(instrs, finals, entries, blend, now);
            (k in o.entries <==> k in entries) && (k in entries ==> o.entries[k] == entries[k])
    decreases |instrs|
  {
    if instrs != [] {
      ProducedKeysTail(instrs);
      var b := Resolve(instrs[0].bottom, finals, entries);
      var t := Resolve(instrs[0].top, finals, entries);
      if b.Some? && t.Some? {
        ExecuteFrame(instrs[1..], finals, entries[Produced(instrs[0]) := Entry(blend(b.value, t.value), now, None)], blend, now, k);
      }
    }
  }

  /**
   * The cache only grows, and only by produced keys; when every instruction
   * ran it holds all of them.
   */
  lemma {:induction false} ExecuteKeys(instrs: seq<Instruction>, finals: seq<Picture>, entries: map<Key, Entry<Image>>,
                                       blend: Blend, now: Timestamp)
    ensures var o := Execute(instrs, finals, entries, blend, now);
            && entries.Keys <= o.entries.Keys <= entries.Keys + ProducedKeys(instrs)
            && (o.ok ==> o.entries.Keys == entries.Keys + ProducedKeys(instrs))
    decreases |instrs|
  {
    if instrs != [] {
      ProducedKeysTail(instrs);
      var b := Resolve(instrs[0].bottom, finals, entries);
      var t := Resolve(instrs[0].top, finals, entries);
      if b.Some? && t.Some? {
        ExecuteKeys(instrs[1..], finals, entries[Produced(instrs[0]) := Entry(blend(b.value, t.value), now, None)], blend, now);
      }
    }
  }

  /** Every entry the loop writes is stamped with the render's time and marked unused. */
  lemma {:induction false} ExecuteStamps(instrs: seq<Instruction>, finals: seq<Picture>, entries: map<Key, Entry<Image>>,
                                         blend: Blend, now: Timestamp)
    ensures var o := Execute(instrs, finals, entries, blend, now);
            forall k :: k in o.entries && !(k in entries && o.entries[k] == entries[k]) ==>
              o.entries[k].lastUpdated == now && o.entries[k].lastUsed.None?
    decreases |instrs|
  {
    if instrs != [] {
      var b := Resolve(instrs[0].bottom, finals, entries);
      var t := Resolve(instrs[0].top, finals, entries);
      if b.Some? && t.Some? {
        ExecuteStamps(instrs[1..], finals, entries[Produced(instrs[0]) := Entry(blend(b.value, t.value), now, None)], blend, now);
      }
    }
  }

  /** What instruction j + 1 can read after the first one ran is what instruction j + 1 of the whole list can. */
  lemma KnownShift(instrs: seq<Instruction>, j: nat, keys: set<Key>)
    requires j < |instrs|
    ensures Known(instrs[1..], j, keys + {Produced(instrs[0])}) == Known(instrs, j + 1, keys)
  {
    assert instrs[..j + 1][1..] == instrs[1..][..j];
    ProducedKeysTail(instrs[..j + 1]);
  }

  /**
   * The loop runs to the end exactly when the instruction list is planned:
   * every operand is a layer in range, a cached key, or a key an earlier
   * instruction produced.
   */
  lemma {:induction false} ExecuteOk(instrs: seq<Instruction>, finals: seq<Picture>, entries: map<Key, Entry<Image>>,
                                     blend: Blend, now: Timestamp)
    ensures Execute(instrs, finals, entries, blend, now).ok <==> Planned(instrs, finals, entries.Keys)
    decreases |instrs|
  {
    if instrs != [] {
      var ins := instrs[0];
      var b := Resolve(ins.bottom, finals, entries);
      var t := Resolve(ins.top, finals, entries);
      assert Known(instrs, 0, entries.Keys) == entries.Keys by {
        assert instrs[..0] == [];
      }
      var keys' := entries.Keys + {Produced(ins)};
      forall j | 0 <= j < |instrs| - 1
        ensures Known(instrs[1..], j, keys') == Known(instrs, j + 1, entries.Keys)
      {
        KnownShift(instrs, j, entries.Keys);
      }
      if b.Some? && t.Some? {
        var entries' := entries[Produced(ins) := Entry(blend(b.value, t.value), now, None)];
        assert entries'.Keys == keys';
        ExecuteOk(instrs[1..], finals, entries', blend, now);
        if Planned(instrs[1..], finals, keys') {
          forall j | 0 <= j < |instrs|
            ensures && Available(instrs[j].bottom, finals, Known(instrs, j, entries.Keys))
                    && Available(instrs[j].top, finals, Known(instrs, j, entries.Keys))
          {
            if j > 0 {
              assert instrs[j] == instrs[1..][j - 1];
            }
          }
        }
        if Planned(instrs, finals, entries.Keys) {
          forall j | 0 <= j < |instrs| - 1
            ensures && Available(instrs[1..][j].bottom, finals, Known(instrs[1..], j, keys'))
                    && Available(instrs[1..][j].top, finals, Known(instrs[1..], j, keys'))
          {
            assert instrs[1..][j] == instrs[j + 1];
          }
        }
      }
    }
  }

  /**
   * The entry for the last instruction's key holds the blend of its two
   * operands as they stood after the instructions before it.
   */
  lemma LastInstruction(pre: seq<Instruction>, last: Instruction, finals: seq<Picture>,
                        entries: map<Key, Entry<Image>>, blend: Blend, now: Timestamp)
    requires Execute(pre + [last], finals, entries, blend, now).ok
    ensures var before := Execute(pre, finals, entries, blend, now).entries;
            var b, t := Resolve(last.bottom, finals, before), Resolve(last.top, finals, before);
            && b.Some? && t.Some?
            && Execute(pre + [last], finals, entries, blend, now).entries ==
               before[Produced(last) := Entry(blend(b.value, t.value), now, None)]
  {
    ExecuteAppend(pre, [last], finals, entries, blend, now);
  }

  /**
   * With no visible layers the target is the empty key, which the loop never
   * stores: an instruction runs only when both its operands resolve, and an
   * operand that resolves is not empty. Unless the empty key was cached
   * before, the final lookup fails.
   */
  lemma {:induction false} EmptyTargetFails(instrs: seq<Instruction>, finals: seq<Picture>, entries: map<Key, Entry<Image>>,
                                            blend: Blend, now: Timestamp)
    requires [] !in entries
    ensures [] !in Execute(instrs, finals, entries, blend, now).entries
    decreases |instrs|
  {
    if instrs != [] {
      var b := Resolve(instrs[0].bottom, finals, entries);
      var t := Resolve(instrs[0].top, finals, entries);
      if b.Some? && t.Some? {
        // An operand that resolves is a layer index or a cached key, so it is not empty.
        assert instrs[0].bottom != [];
        EmptyTargetFails(instrs[1..], finals, entries[Produced(instrs[0]) := Entry(blend(b.value, t.value), now, None)], blend, now);
      }
    }
  }

  /**
   * A planned list whose last instruction yields the target runs to the end
   * and leaves an entry for the target: the final lookup of render_layers
   * succeeds.
   */
  lemma PlannedTargetFound(instrs: seq<Instruction>, finals: seq<Picture>, entries: map<Key, Entry<Image>>,
                           blend: Blend, now: Timestamp, target: Key)
    requires Planned(instrs, finals, entries.Keys)
    requires instrs != [] && Produced(instrs[|instrs| - 1]) == target
    ensures Execute(instrs, finals, entries, blend, now).ok
    ensures target in Execute(instrs, finals, entries, blend, now).entries
  {
    ExecuteOk(instrs, finals, entries, blend, now);
    ExecuteKeys(instrs, finals, entries, blend, now);
    assert target in ProducedKeys(instrs);
  }

  // ---------------------------------------------------------------------------
  // render_partial_layer as a function of the elements

  /** Python's list indexing: -n <= i < n, a negative i counting from the end; None is IndexError. */
  function PyIndex(n: nat, i: int): (r: Option<nat>)
    ensures r.Some? <==> 0 <= n + i && i < n
    ensures r.Some? ==> r.value < n && (r.value == i || r.value == n + i)
  {
    if 0 <= i < n then Some(i) else if 0 <= n + i && i < 0 then Some(n + i) else None
  }

  /** What overlay_element_on_image reads of an element: its image and its transformation. */
  function Views(es: seq<DrawableElement>): (vs: seq<(Option<Image>, Matrix)>)
    reads es
    ensures |vs| == |es|
    ensures forall k :: 0 <= k < |es| ==> vs[k] == (es[k].image, Effective(es[k].transformation))
  {
    seq(|es|, k reads es requires 0 <= k < |es| => (es[k].image, Effective(es[k].transformation)))
  }

  /**
   * Stamps elements i, i + 1, ..., end - 1 onto the canvas, in that order;
   * None when one of the indices is out of range or one of those elements
   * has no image.
   */
  function Paint(canvas: Image, vs: seq<(Option<Image>, Matrix)>, i: int, end: int, stamp: Stamp): Option<Image>
    decreases end - i
  {
    if i >= end then Some(canvas)
    else match PyIndex(|vs|, i)
      case None => None
      case Some(k) =>
        if vs[k].0.None? then None
        else Paint(stamp(canvas, vs[k].0.value, vs[k].1), vs, i + 1, end, stamp)
  }

  /** Element i of the range (a Python index) is present and has an image. */
  predicate Paintable(vs: seq<(Option<Image>, Matrix)>, i: int)
  {
    PyIndex(|vs|, i).Some? && vs[PyIndex(|vs|, i).value].0.Some?
  }

  /**
   * render_partial_layer succeeds exactly when every index of the range is
   * a valid Python index of the element list and every element it names
   * has an image; for a non-empty range the indices are valid exactly when
   * the range stays within both ends of the list.
   */
  lemma {:induction false} PaintDefined(canvas: Image, vs: seq<(Option<Image>, Matrix)>, i: int, end: int, stamp: Stamp)
    ensures Paint(canvas, vs, i, end, stamp).Some? <==> forall j :: i <= j < end ==> Paintable(vs, j)
    ensures (forall j :: i <= j < end ==> PyIndex(|vs|, j).Some?) <==> i >= end || (0 <= |vs| + i && end <= |vs|)
    decreases end - i
  {
    if i < end {
      var k := PyIndex(|vs|, i);
      if k.Some? && vs[k.value].0.Some? {
        PaintDefined(stamp(canvas, vs[k.value].0.value, vs[k.value].1), vs, i + 1, end, stamp);
      } else {
        assert !Paintable(vs, i);
      }
      if !(0 <= |vs| + i && end <= |vs|) {
        assert !PyIndex(|vs|, i).Some? || !PyIndex(|vs|, end - 1).Some?;
      }
    }
  }

  /**
   * Painting i..end is painting i..m and then m..end on the result: a layer
   * can be rendered in two parts, as draw_element does below and above an
   * element.
   */
  lemma {:induction false} PaintSplit(canvas: Image, vs: seq<(Option<Image>, Matrix)>, i: int, m: int, end: int, stamp: Stamp)
    requires i <= m <= end
    ensures Paint(canvas, vs, i, end, stamp) ==
            match Paint(canvas, vs, i, m, stamp)
            case None => None
            case Some(c) => Paint(c, vs, m, end, stamp)
    decreases m - i
  {
    if i < m {
      var k := PyIndex(|vs|, i);
      if k.Some? && vs[k.value].0.Some? {
        PaintSplit(stamp(canvas, vs[k.value].0.value, vs[k.value].1), vs, i + 1, m, end, stamp);
      }
    }
  }

  // ---------------------------------------------------------------------------
  // The processor

  class ImageProcessor {
    const layerList: LayerList
    /** The layer-composite cache the render loop reads and writes. */
    const cache: LayersCache<Image>
    /** The image shown: all visible layers blended. */
    var finalImage: Picture

    constructor ()
      ensures fresh(layerList) && fresh(cache)
      ensures layerList.Valid() && layerList.layers == [] && layerList.activeIdx == None
      ensures cache.cache == map[] && finalImage == None
    {
      layerList := new LayerList();
      cache := new LayersCache();
      finalImage := None;
    }

    /** Lines 298-305 of render_layers: one operand, from the layer list or from the cache. */
    method Operand(key: Key) returns (r: Option<Image>)
      ensures r == Resolve(key, FinalImages(layerList.layers), cache.cache)
    {
      if |key| == 1 {
        if key[0] < |layerList.layers| {
          return layerList.layers[key[0]].finalImage;
        }
        return None;
      }
      if key in cache.cache {
        return Some(cache.cache[key].data);
      }
      return None;
    }

    /**
     * Lines 296-308 of render_layers: runs the instructions in order, each
     * blend stored under its produced key; stops (the source raises) at the
     * first operand that is missing, keeping the entries stored so far.
     */
    method RunInstructions(instrs: seq<Instruction>, blend: Blend, now: Timestamp) returns (ok: bool)
      modifies cache
      ensures var o := Execute(instrs, FinalImages(layerList.layers), old(cache.cache), blend, now);
              cache.cache == o.entries && ok == o.ok
    {
      ghost var finals := FinalImages(layerList.layers);
      var i := 0;
      while i < |instrs|
        invariant i <= |instrs|
        invariant Execute(instrs[i..], finals, cache.cache, blend, now) == Execute(instrs, finals, old(cache.cache), blend, now)
      {
        var bottom := Operand(instrs[i].bottom);
        if bottom.None? {
          return false;
        }
        var top := Operand(instrs[i].top);
        if top.None? {
          return false;
        }
        ghost var before := cache.cache;
        cache.AddCache(instrs[i].bottom + instrs[i].top, blend(bottom.value, top.value), now);
        assert cache.cache == before[Produced(instrs[i]) := Entry(blend(bottom.value, top.value), now, None)];
        assert instrs[i..][1..] == instrs[i + 1..];
        i := i + 1;
      }
      assert instrs[i..] == [];
      ok := true;
    }

    /**
     * render_layers with the planner's instruction list as a parameter.
     * A single visible layer is shown as it is and the cache is left alone.
     * Otherwise the instructions run and the entry for the full visible
     * tuple is shown; a missing operand or a missing final entry fails (the
     * source raises), leaving the entries stored so far and the old final
     * image.
     */
    method RenderLayers(instrs: seq<Instruction>, blend: Blend, now: Timestamp) returns (ok: bool)
      modifies this`finalImage, cache
      ensures var target, finals := Visible(layerList.layers), FinalImages(layerList.layers);
              var o := Execute(instrs, finals, old(cache.cache), blend, now);
              if |target| == 1 then
                ok && finalImage == finals[target[0]] && cache.cache == old(cache.cache)
              else
                && cache.cache == o.entries
                && ok == (o.ok && target in o.entries)
                && finalImage == if ok then Some(o.entries[target].data) else old(finalImage)
    {
      var target := Visible(layerList.layers);
      if |target| == 1 {
        finalImage := layerList.layers[target[0]].finalImage;
        return true;
      }
      ok := RunInstructions(instrs, blend, now);
      if !ok || target !in cache.cache {
        return false;
      }
      finalImage := Some(cache.cache[target].data);
    }

    /**
     * The index arithmetic of insert_empty_layer: the new layer goes just
     * above (or just below) the first occurrence of `layer`; None where the
     * source's lookup raises.
     */
    method InsertIndex(layer: Layer, above: bool) returns (r: Option<nat>)
      ensures r.None? <==> layer !in layerList.layers
      ensures r.Some? && above ==>
                && 1 <= r.value <= |layerList.layers|
                && layerList.layers[r.value - 1] == layer && layer !in layerList.layers[..r.value - 1]
      ensures r.Some? && !above ==>
                && r.value < |layerList.layers|
                && layerList.layers[r.value] == layer && layer !in layerList.layers[..r.value]
    {
      var idx := layerList.GetLayerIdx(layer);
      if idx.None? {
        return None;
      }
      r := Some(if above then idx.value + 1 else idx.value);
    }

    /**
     * render_partial_layer: stamps elements start..end-1 of `layer`, in
     * order, onto an all-zero image shaped like the final image. Asking an
     * element for its transformation may set it to the identity, which
     * changes no element's view.
     */
    method RenderPartialLayer(layer: Layer, start: int, end: int, stamp: Stamp) returns (r: Option<Image>)
      requires finalImage.Some?
      modifies layer.elements`transformation
      ensures forall k :: 0 <= k < |layer.elements| ==>
                layer.elements[k].transformation == old(layer.elements[k].transformation) ||
                layer.elements[k].transformation == Some(Effective(old(layer.elements[k].transformation)))
      ensures Views(layer.elements) == old(Views(layer.elements))
      ensures r == Paint(ZerosLike(finalImage.value), Views(layer.elements), start, end, stamp)
    {
      ghost var vs := Views(layer.elements);
      var image := ZerosLike(finalImage.value);
      var i := start;
      while i < end
        invariant i == start || start <= i <= end
        invariant forall k :: 0 <= k < |layer.elements| ==>
                    layer.elements[k].transformation == old(layer.elements[k].transformation) ||
                    layer.elements[k].transformation == Some(Effective(old(layer.elements[k].transformation)))
        invariant Views(layer.elements) == vs
        invariant Paint(image, vs, i, end, stamp) == Paint(ZerosLike(finalImage.value), vs, start, end, stamp)
        decreases end - i
      {
        var k := PyIndex(|layer.elements|, i);
        if k.None? {
          return None;
        }
        var e := layer.elements[k.value];
        var t := e.GetTransformation();
        if e.image.None? {
          return None;
        }
        image := stamp(image, e.image.value, t);
        i := i + 1;
      }
      return Some(image);
    }
  }
}
