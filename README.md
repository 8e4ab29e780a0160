# PyPainter layers, layer cache and render loop in Dafny

This project models the core of PyPainter, a layered image editor. It covers:

- the layer-composite cache (`LayersCache`). It is a table of pre-blended images keyed by runs of layer indices;
- the choice of cached runs that saves the most overlays (`get_precalculated`);
- the render loop of `ImageProcessor`. It runs a list of overlay instructions, reads each operand from the layer list or the cache, and stores every blend back in the cache;
- the list of layers (`LayerList`), including the repair of the active index when a layer is deleted;
- a layer (`Layer`): its element list and the topmost-hit search;
- a drawable element (`DrawableElement`): `clear_image`, the lazy transformation and the integer hit test over its touch mask;
- the nearest-layout choice of `LayoutManager`.

Files, one module each unless noted:

- `wrappers.dfy`: `Option`, which stands for Python's `None`, for a missing key and for a raised exception.
- `seqs.dfy`: the first-occurrence search used by the identity lookups (`next(i for ... if l is x)`), and strictly ascending keys.
- `images.dfy`: images and masks as nested sequences, and the all-zero arrays of `np.zeros` and `np.zeros_like`.
- `layers_cache.dfy` (`Cache`): the `LayersCache` class, `add_cache` and `get_intersection`.
- `cover_selection.dfy` (`CoverSelection`, `CoverSelectionProofs`): `get_precalculated` and its optimality.
- `cover_examples.dfy` (`CoverSelectionExamples`): the doc-comment example and the test scenarios, computed by the verifier.
- `drawable_element.dfy` (`Drawable`): `DrawableElement` and the disk scan of `is_touched`.
- `layer.dfy` (`Layers`): `Layer` and its shared id counter.
- `layer_list.dfy` (`LayerLists`): `LayerList`.
- `render.dfy` (`Rendering`): the instruction loop of `render_layers`, the index arithmetic of `insert_empty_layer` and `render_partial_layer`.
- `layout_manager.dfy` (`Layout`): `choose_layout_config`.

In `src/Layers/LayersCache.py`, `get_intersection` and `get_precalculated` consist only of their doc-comments. As written they return `None`. The model gives them the behaviour that the doc-comments and `tests/Layers/test_layers_cache.py` describe:

- `get_intersection(l)` returns the cached keys that contain `l`.
- `get_precalculated(T)` returns cached keys that occur as contiguous, non-overlapping runs of `T`, chosen to leave the fewest overlays to do.
  - A key of n layers replaces n - 1 overlays, matching the doc-comment's count of the remaining merges.
  - The choice is computed by a table over end positions (weighted interval scheduling).
  - It is proved optimal against every other selection.
  - It is proved maximal: every cached run of two or more layers overlaps a chosen one.

The contracts do not say which of several equally good selections is returned. Where the table must break a tie, it keeps the selection found without the new run.

Images are opaque values. Blending two images (`overlay_images`) and stamping an element onto an image (`overlay_element_on_image`) are function parameters, so nothing is assumed about their pixel arithmetic. The render loop is specified by a function `Execute` of the cache contents, with these properties proved:

- It runs to the end exactly when the instruction list is planned: every operand is a layer that has a final image, a cached key, or the result of an earlier instruction. A layer without an image cannot be blended, as in the source, where `overlay_images` raises on it.
- The instructions run in list order.
- It writes only the keys the instructions produce.
- Each new entry is stamped with the render's time and marked unused.

## Model

| member | source | states |
|---|---|---|
| Cache.LayersCache.constructor | src/Layers/LayersCache.py:6-7 | a new cache has no entries |
| Cache.LayersCache.AddCache | src/Layers/LayersCache.py:9-17 | the entry for the key holds the data, the given time and no last use, overwriting any earlier one; the key set gains exactly that key; every other entry is unchanged |
| Cache.Intersection | src/Layers/LayersCache.py:19-27 | a key is in the answer iff it is cached and contains the layer |
| Cache.IntersectionAfterAdd | src/Layers/LayersCache.py:13-27 | after storing a key, the answer for a layer gains that key iff it contains the layer, and is otherwise unchanged |
| Cache.IntersectionEmpty | tests/Layers/test_layers_cache.py:34-35 | the answer is empty iff no cached key contains the layer |
| Cache.IntersectionExample | tests/Layers/test_layers_cache.py:22-35 | with keys (1,2), (2,3), (4,5): layer 2 gives {(1,2),(2,3)}, layer 4 gives {(4,5)}, layer 6 gives nothing |
| Seqs.FirstIndex | src/Layers/LayerList.py:42 | the position holds the object and no earlier position does |
| CoverSelection.Runs | src/Layers/LayersCache.py:36-40 | a span is a candidate iff it is a non-empty contiguous run of the request that is a cached key |
| CoverSelection.Cover | src/Layers/LayersCache.py:29-40 | the chosen spans are candidate runs inside the request, in left-to-right order, pairwise non-overlapping, each of at least two layers |
| CoverSelection.Precalculated | src/Layers/LayersCache.py:29-48 | every returned key is cached, has at least two layers and equals the request's slice at its chosen span |
| CoverSelectionProofs.CoverOptimal | src/Layers/LayersCache.py:47-51 | no selection of non-overlapping cached runs saves more overlays (sum of length - 1) than the chosen one |
| CoverSelectionProofs.CoverMaximal | tests/Layers/test_layers_cache.py:53-61 | every cached run of two or more layers overlaps a chosen run, so no usable disjoint match is left out |
| CoverSelectionProofs.PrecalculatedEmpty | tests/Layers/test_layers_cache.py:48-51 | the result is empty iff no run of two or more layers of the request is cached |
| CoverSelectionProofs.PrecalculatedDisjoint | src/Layers/LayersCache.py:39-40 | for an ascending request, no layer occurs in two returned keys |
| CoverSelectionProofs.OccursOnce | src/Layers/LayersCache.py:36-40 | in an ascending request a key occurs as a run at one position only |
| CoverSelectionExamples.DocExample | src/Layers/LayersCache.py:42-48 | with (1,2), (1,2,3), (0,1,2,3), (5,6) cached, the request (1,...,6) gives [(1,2,3), (5,6)] |
| CoverSelectionExamples.NoCache | tests/Layers/test_layers_cache.py:48-51 | an empty cache gives [] for (7,8,9) |
| CoverSelectionExamples.PartialMatch | tests/Layers/test_layers_cache.py:53-61 | with (1,2), (3,4), (6,7,8) cached, the request (1,...,9) gives [(1,2), (3,4), (6,7,8)] |
| CoverSelectionExamples.OverlappingChoices | tests/Layers/test_layers_cache.py:63-72 | with (1,2), (2,3), (1,2,3), (4,5,6) cached, the request (1,...,6) gives [(1,2,3), (4,5,6)] |
| Drawable.Scan | src/DrawableElement.py:53-72 | the nested scan returns true iff the point is on the mask and a pixel of the clamped window within distance r is 255 |
| Drawable.TouchedAnywhere | src/DrawableElement.py:59-72 | for r >= 0, clamping the window loses nothing: touched iff on the mask and some hit anywhere in the mask |
| Drawable.NegativeRadius | src/DrawableElement.py:59-69 | a negative radius touches nothing |
| Drawable.CentreHit | src/DrawableElement.py:66-71 | a set pixel under the point itself is always found |
| Drawable.DrawableElement.constructor | src/DrawableElement.py:6-22 | the fields hold the given tool, image, size, touch mask and transformation |
| Drawable.DrawableElement.ClearImage | src/DrawableElement.py:24-29 | fails, changing nothing, without a size or with a negative dimension; otherwise the image is all-zero h x w x 4 and the mask all-zero h x w |
| Drawable.DrawableElement.GetTransformation | src/DrawableElement.py:74-85 | returns the stored matrix, or the identity, which it then stores; a second call returns the same matrix |
| Drawable.DrawableElement.IsTouched | src/DrawableElement.py:31-72 | false without a touch mask; otherwise the disk-scan verdict at the mapped point; the effective transformation is unchanged |
| Layers.LayerIdCounter.constructor | src/Layers/Layer.py:10 | the shared counter starts at 0 |
| Layers.Layer.constructor | src/Layers/Layer.py:15-25 | the final image equals the starting image, drawing is off, there are no elements, and the id is the counter's value, which then grows by one |
| Layers.Layer.ToggleVisibility | src/Layers/Layer.py:52-53 | visibility is negated |
| Layers.Layer.AddElement | src/Layers/Layer.py:55-66 | the element is appended on top; the others are unchanged |
| Layers.Layer.RemoveElement | src/Layers/Layer.py:68-70 | an index in range is deleted, keeping the others in order; any other index changes nothing |
| Layers.Layer.GetElementIndex | src/Layers/Layer.py:75-85 | None iff the element is absent; otherwise the first position holding that very element |
| Layers.Layer.GetTouchedElement | src/Layers/Layer.py:87-99 | None iff no element is touched; otherwise a touched element with no touched element above it; only the elements' transformations may change, each either unchanged or set to its effective value |
| LayerLists.LayerList.constructor | src/Layers/LayerList.py:14-20 | no layers and no active index |
| LayerLists.LayerList.ActiveLayer | src/Layers/LayerList.py:30-32 | there is an active layer iff the index is set and in range, and it is one of the layers |
| LayerLists.LayerList.GetLayerIdx | src/Layers/LayerList.py:34-42 | None (StopIteration) iff the layer is absent; otherwise the first position holding that very layer |
| LayerLists.LayerList.DeleteAllLayers | src/Layers/LayerList.py:76-81 | no layers and no active index |
| LayerLists.LayerList.AddLayer | src/Layers/LayerList.py:83-98 | the layer is appended on top; it becomes active iff asked to or there was no active index; the active layer is the new one iff that happened or the old index already pointed at this object |
| LayerLists.LayerList.SetActiveLayer | src/Layers/LayerList.py:104-113 | succeeds iff there is an in-range active index and the layer is present; then the index is the layer's first position; on failure nothing changes |
| LayerLists.LayerList.DeleteLayer | src/Layers/LayerList.py:115-140 | fails iff the layer is absent; otherwise removes its first occurrence, keeping the order; a non-active delete keeps the same active layer; deleting the active layer activates the one below it, or else the top layer, or leaves a stale index 0 |
| Rendering.Visible | src/ImageProcessor.py:284-286 | the target is strictly ascending and holds exactly the indices of the visible layers |
| Rendering.ExecuteOk | src/ImageProcessor.py:296-308 | the loop runs to the end iff every operand is a layer in range that has a final image, a cached key, or a key produced by an earlier instruction |
| Rendering.ExecuteAppend | src/ImageProcessor.py:296-308 | running a + b is running a, then b on the cache a left, unless a stopped |
| Rendering.ExecuteFrame | src/ImageProcessor.py:308 | a key no instruction produces keeps its entry, or its absence |
| Rendering.ExecuteKeys | src/ImageProcessor.py:296-308 | the cache only grows, only by produced keys, and holds all of them when the loop ran to the end |
| Rendering.ExecuteStamps | src/ImageProcessor.py:308 | every entry the loop writes carries the render's time and no last use |
| Rendering.LastInstruction | src/ImageProcessor.py:296-308 | the last instruction's entry is the blend of its operands as they stood after the earlier instructions |
| Rendering.EmptyTargetFails | src/ImageProcessor.py:310 | for every instruction list: the loop never stores the empty key (the target when no layer is visible), so the final lookup fails unless it was cached before |
| Rendering.PlannedTargetFound | src/ImageProcessor.py:287-310 | a planned list whose last instruction yields the target runs to the end and leaves an entry for the target |
| Rendering.PyIndex | src/ImageProcessor.py:260 | Python list indexing: defined iff -n <= i < n, counting from the end for negative i |
| Rendering.PaintDefined | src/ImageProcessor.py:259-260 | rendering a range succeeds iff every index in it is a valid Python index naming an element that has an image; the indices are all valid iff the range is empty or stays within both ends of the list |
| Rendering.PaintSplit | src/ImageProcessor.py:259-261 | rendering i..end equals rendering i..m, then m..end on the result |
| Rendering.ImageProcessor.constructor | src/ImageProcessor.py:38-41 | an empty layer list, an empty cache and no final image |
| Rendering.ImageProcessor.Operand | src/ImageProcessor.py:298-305 | a one-index key reads that layer's final image; any other key reads the cache entry's data; an index out of range, a layer without an image or a missing key is an error |
| Rendering.ImageProcessor.RunInstructions | src/ImageProcessor.py:296-308 | the cache ends as Execute says, and the result tells whether every instruction ran |
| Rendering.ImageProcessor.RenderLayers | src/ImageProcessor.py:279-312 | one visible layer: that layer's final image is shown and the cache is untouched; otherwise the cache is what the loop leaves, and the target's entry is shown iff the loop ran to the end and the entry exists |
| Rendering.ImageProcessor.InsertIndex | src/ImageProcessor.py:240-245 | None iff the layer is absent; otherwise just above or just below its first position |
| Rendering.ImageProcessor.RenderPartialLayer | src/ImageProcessor.py:247-261 | the result is elements start..end-1 stamped in order onto a zero image shaped like the final image, and an error for an index out of range or an element without an image; only the elements' transformations may change, each either unchanged or set to its effective value |
| Layout.LayoutManager.constructor | src/Layout/LayoutManager.py:17 | the manager holds the given layouts entry |
| Layout.LayoutManager.Candidates | src/Layout/LayoutManager.py:38 | a missing layouts entry is an empty list |
| Layout.LayoutManager.ChooseLayoutConfig | src/Layout/LayoutManager.py:32-46 | None iff there are no layouts; otherwise one of the layouts at the smallest distance, with a missing width or height counted as 0, and every earlier layout strictly farther |

## Left out

- Pixel arithmetic: `overlay_images` (src/ImageProcessor.py:314-333) and `overlay_element_on_image` (src/ImageProcessor.py:393-421) are the parameters `blend` and `stamp`. Their float scaling and `astype` truncation make blending non-associative, so the model claims nothing about reusing cached composites giving the same pixels. Both parameters take present images only: a missing layer or element image is an error before either is applied, as the source raises there (src/ImageProcessor.py:324 and 406-410). Any other failure inside them is not modelled.
- `cv2.warpAffine` is a foreign call; it is part of `stamp`.
- Instruction planning: `get_overlay_instructions` (src/ImageProcessor.py:287) is not part of this model. Its list is a parameter of `render_layers`. Instead of assuming the list is well formed, the model proves exactly when the loop succeeds (`Rendering.ExecuteOk`).
- The source reaches the cache as `layer_list.cache`, which `LayerList` does not define. The model gives `ImageProcessor` its own `LayersCache`. The source also subscripts the cache object directly; the model reads that as the stored entry's data.
- `insert_empty_layer` calls `layer_list.insert_empty_layer`, which `LayerList` does not define. Only the index it computes is modelled (`Rendering.ImageProcessor.InsertIndex`). `move_layer_to_top` is not part of this model.
- `datetime.now()` is the parameter `now`. One render uses one reading for all the entries it writes.
- `Drawable.DrawableElement.IsTouched`: the float inverse transform (`get_inverse_transformation`, `np.linalg.inv`) and the `int()` truncation are the parameter `toLocal`. The `LinAlgError` a singular transformation raises is not modelled, because `toLocal` is total.
- `Layout.LayoutManager.ChooseLayoutConfig`: compares squared integer distances instead of the float `** 0.5`. This gives the same order, except where float rounding makes two different large distances equal.
- `Rendering.ImageProcessor.RenderPartialLayer`: requires a final image. `np.zeros_like(None)` is not modelled.
- `Layers.Layer.AddElement`: requires the element's touch mask to be rectangular, as every numpy mask is.
- The deep copy of the starting image in the `Layer` constructor is modelled by value. The object identity that the test checks with `is not` is not modelled.
- The `Layer` fields `gui` and its signals, and the `DrawableElement` fields `id`, `z_index`, `visible`, `instructions` and `offset`, are not modelled: none of the modelled operations reads them.
- `FakeLayer` and `render_layer` are not part of this model.
- Qt widgets and GUI notifications are not modelled (`gui.add_layer_in_gui`, `set_active_layer_in_gui`, `layer_image_updated.emit`, `update_zoomable_label`). Neither are the `print` calls, `LayoutManager.setup_layout`, or the singleton `__new__`.
- Configuration loading is not modelled. The layouts entry of the config is a constructor argument of `LayoutManager`.
- `CoverSelection.Precalculated`: the contracts do not say which of several equally good selections is returned, and the source does not define one either.
