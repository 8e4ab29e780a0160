/**
 * choose_layout_config of src/Layout/LayoutManager.py: picks the layout
 * whose configured size is nearest to the window's size. The source
 * compares Euclidean distances; the model compares their squares, which
 * orders the layouts the same way and stays in integers.
 */
module Layout {
  import opened Wrappers

  /** One entry of the config's "layouts" list; a missing "width" or "height" is None. */
  datatype LayoutConfig = LayoutConfig(width: Option<int>, height: Option<int>)

  /** layout_config.get(key, 0). */
  function OrZero(v: Option<int>): int
  {
    if v.Some? then v.value else 0
  }

  /** The squared distance between the window size and a layout's size. */
  function Distance2(c: LayoutConfig, w: int, h: int): (d: nat)
  {
    var dw, dh := w - OrZero(c.width), h - OrZero(c.height);
    dw * dw + dh * dh
  }

  class LayoutManager {
    /** self.config.get('layouts', []): None when the config has no "layouts" entry. */
    var layouts: Option<seq<LayoutConfig>>

    constructor (layouts: Option<seq<LayoutConfig>>)
      ensures this.layouts == layouts
    {
      this.layouts := layouts;
    }

    /** The list the search goes over. */
    function Candidates(): (cs: seq<LayoutConfig>)
      reads this
      ensures layouts.None? ==> cs == []
    {
      if layouts.Some? then layouts.value else []
    }

    /**
     * choose_layout_config: None when there are no layouts; otherwise a
     * layout at the smallest distance, the earliest one on a tie since only
     * a strictly smaller distance replaces the best so far.
     */
    method ChooseLayoutConfig(w: int, h: int) returns (best: Option<LayoutConfig>)
      ensures best.None? <==> Candidates() == []
      ensures best.Some? ==>
                exists k ::
                  && 0 <= k < |Candidates()| && Candidates()[k] == best.value
                  && (forall j :: 0 <= j < |Candidates()| ==> Distance2(best.value, w, h) <= Distance2(Candidates()[j], w, h))
                  && (forall j :: 0 <= j < k ==> Distance2(Candidates()[j], w, h) > Distance2(best.value, w, h))
    {
      var cs := Candidates();
      best := None;
      var bestDistance: Option<nat> := None;  // None stands for float('inf')
      var bestIndex := 0;
      var i := 0;
      while i < |cs|
        invariant i <= |cs|
        invariant best.None? <==> i == 0
        invariant best.None? <==> bestDistance.None?
        invariant best.Some? ==>
                    && bestIndex < i && cs[bestIndex] == best.value
                    && bestDistance == Some(Distance2(best.value, w, h))
                    && (forall j :: 0 <= j < i ==> Distance2(best.value, w, h) <= Distance2(cs[j], w, h))
                    && (forall j :: 0 <= j < bestIndex ==> Distance2(cs[j], w, h) > Distance2(best.value, w, h))
      {
        var d := Distance2(cs[i], w, h);
        if bestDistance.None? || d < bestDistance.value {
          bestDistance := Some(d);
          best := Some(cs[i]);
          bestIndex := i;
        }
        i := i + 1;
      }
    }
  }
}
