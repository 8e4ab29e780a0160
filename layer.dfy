/**
 * Layer of src/Layers/Layer.py: a base image, the rendered final image,
 * a visibility flag and the list of drawable elements drawn on it, top
 * element last. The class-level id counter is an object shared by all
 * layers.
 */
module Layers {
  import opened Wrappers
  import opened Seqs
  import opened Images
  import opened Drawable

  /** The class variable Layer._id_counter. */
  class LayerIdCounter {
    var next: nat

    constructor ()
      ensures next == 0
    {
      next := 0;
    }
  }

  class Layer {
    var image: Option<Image>
    /** A deep copy of the starting image until the layer is rendered. */
    var finalImage: Option<Image>
    var visible: bool
    var drawingEnabled: bool
    var elements: seq<DrawableElement>
    const id: nat

    /** Every element's touch mask is a rectangular array. */
    predicate Valid()
      reads this, elements
    {
      forall k :: 0 <= k < |elements| ==> elements[k].Valid()
    }

    /**
     * A new layer: final image equal to the starting image, drawing
     * disabled, no elements, and the next id of the shared counter.
     */
    constructor (ids: LayerIdCounter, image: Option<Image>, visible: bool := true)
      modifies ids
      ensures Valid()
      ensures this.image == image && finalImage == image
      ensures this.visible == visible && !drawingEnabled && elements == []
      ensures id == old(ids.next) && ids.next == old(ids.next) + 1
    {
      this.image := image;
      finalImage := image;
      this.visible := visible;
      drawingEnabled := false;
      elements := [];
      id := ids.next;
      new;
      ids.next := ids.next + 1;
    }

    /** toggle_visibility. */
    method ToggleVisibility()
      modifies this`visible
      ensures visible == !old(visible)
    {
      visible := !visible;
    }

    /** add_element: the element goes on top, after all the others. */
    method AddElement(e: DrawableElement)
      requires Valid() && e.Valid()
      modifies this`elements
      ensures Valid()
      ensures elements == old(elements) + [e]
    {
      elements := elements + [e];
    }

    /** remove_element: deletes position `index` when it is in range, and does nothing otherwise. */
    method RemoveElement(index: int)
      requires Valid()
      modifies this`elements
      ensures Valid()
      ensures 0 <= index < |old(elements)| ==> elements == old(elements)[..index] + old(elements)[index + 1..]
      ensures !(0 <= index < |old(elements)|) ==> elements == old(elements)
    {
      if 0 <= index < |elements| {
        elements := elements[..index] + elements[index + 1..];
      }
    }

    /** get_element_index: the first position holding this very element, or None. */
    method GetElementIndex(e: DrawableElement) returns (r: Option<nat>)
      ensures r.None? <==> e !in elements
      ensures r.Some? ==> r.value < |elements| && elements[r.value] == e && e !in elements[..r.value]
    {
      var i := 0;
      while i < |elements|
        invariant i <= |elements|
        invariant e !in elements[..i]
      {
        if elements[i] == e {
          return Some(i);
        }
        assert elements[..i + 1] == elements[..i] + [elements[i]];
        i := i + 1;
      }
      assert elements[..i] == elements;
      return None;
    }

    /**
     * get_touched_element: scans from the top element down and returns the
     * first one the point touches, or None. Each element it asks fixes its
     * transformation to the identity if it had none, which does not change
     * any element's answer.
     */
    method GetTouchedElement(x: int, y: int, r: int, toLocal: Locator) returns (hit: Option<DrawableElement>)
      requires Valid()
      modifies elements`transformation
      ensures Valid()
      ensures forall k :: 0 <= k < |elements| ==>
                elements[k].transformation == old(elements[k].transformation) ||
                elements[k].transformation == Some(Effective(old(elements[k].transformation)))
      ensures forall k :: 0 <= k < |elements| ==>
                elements[k].touchMask == old(elements[k].touchMask) &&
                Effective(elements[k].transformation) == Effective(old(elements[k].transformation))
      ensures hit.None? <==> forall k :: 0 <= k < |elements| ==> !elements[k].TouchedBy(x, y, r, toLocal)
      ensures hit.Some? ==>
                exists k ::
                  && 0 <= k < |elements| && elements[k] == hit.value
                  && elements[k].TouchedBy(x, y, r, toLocal)
                  && forall k' :: k < k' < |elements| ==> !elements[k'].TouchedBy(x, y, r, toLocal)
    {
      var i := |elements|;
      while i > 0
        invariant 0 <= i <= |elements|
        invariant Valid()
        invariant forall k :: 0 <= k < |elements| ==>
                    elements[k].transformation == old(elements[k].transformation) ||
                    elements[k].transformation == Some(Effective(old(elements[k].transformation)))
        invariant forall k :: 0 <= k < |elements| ==>
                    elements[k].touchMask == old(elements[k].touchMask) &&
                    Effective(elements[k].transformation) == Effective(old(elements[k].transformation))
        invariant forall k :: i <= k < |elements| ==> !elements[k].TouchedBy(x, y, r, toLocal)
      {
        i := i - 1;
        var touched := elements[i].IsTouched(x, y, r, toLocal);
        if touched {
          return Some(elements[i]);
        }
      }
      return None;
    }
  }
}
