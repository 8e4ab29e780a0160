/**
 * DrawableElement of src/DrawableElement.py: one drawn element of a layer,
 * with its image, its touch mask for hit testing and its affine
 * transformation. The float inverse transform that maps a global point
 * into the mask is a parameter (`Locator`); what is modelled is the
 * integer part of the hit test: the bounds check, the clamped window and
 * the scan of the disk of radius r.
 */
module Drawable {
  import opened Wrappers
  import opened Images

  /** A 2x3 affine transformation. */
  type Matrix = seq<seq<real>>

  /** The identity transformation with no offset that get_transformation starts from. */
  const Identity: Matrix := [[1.0, 0.0, 0.0], [0.0, 1.0, 0.0]]

  /**
   * Maps a global point (x, y) to integer local mask coordinates, given the
   * element's transformation: the inverse transform and the int() truncation.
   */
  type Locator = (Matrix, int, int) -> (int, int)

  /** The transformation an element is drawn with: its own, or the identity until one is set. */
  function Effective(t: Option<Matrix>): Matrix
  {
    if t.Some? then t.value else Identity
  }

  /** The number of columns of a mask (shape[1]); an empty mask has none. */
  function Width(m: Mask): nat
  {
    if m == [] then 0 else |m[0]|
  }

  /** A numpy mask: every row has the same number of columns. */
  predicate Rectangular(m: Mask)
  {
    forall i :: 0 <= i < |m| ==> |m[i]| == Width(m)
  }

  function Max(a: int, b: int): int { if a < b then b else a }
  function Min(a: int, b: int): int { if a < b then a else b }

  /** The local point lies on the mask. */
  predicate InBounds(m: Mask, lx: int, ly: int)
  {
    0 <= lx < Width(m) && 0 <= ly < |m|
  }

  /** Pixel (i, j) lies within distance r of (lx, ly) and is set (255). */
  predicate Hit(m: Mask, lx: int, ly: int, r: int, i: int, j: int)
    requires Rectangular(m) && 0 <= i < |m| && 0 <= j < Width(m)
  {
    (i - ly) * (i - ly) + (j - lx) * (j - lx) <= r * r && m[i][j] == 255
  }

  /**
   * The integer part of is_touched: the point is on the mask and some
   * pixel of the window [lx - r, lx + r] x [ly - r, ly + r], clamped to the
   * mask, is a hit.
   */
  predicate Touched(m: Mask, lx: int, ly: int, r: int)
    requires Rectangular(m)
  {
    && InBounds(m, lx, ly)
    && exists i, j ::
         && Max(ly - r, 0) <= i <= Min(ly + r, |m| - 1)
         && Max(lx - r, 0) <= j <= Min(lx + r, Width(m) - 1)
         && Hit(m, lx, ly, r, i, j)
  }

  /** A square no larger than r * r has a root between -r and r. */
  lemma SquareBound(d: int, r: int)
    requires 0 <= r && d * d <= r * r
    ensures -r <= d <= r
  {
  }

  /**
   * Clamping the window loses nothing: for a radius of zero or more, the
   * element is touched exactly when some pixel of the whole mask is a hit.
   */
  lemma TouchedAnywhere(m: Mask, lx: int, ly: int, r: int)
    requires Rectangular(m) && 0 <= r
    ensures Touched(m, lx, ly, r) <==>
            InBounds(m, lx, ly) && exists i, j :: 0 <= i < |m| && 0 <= j < Width(m) && Hit(m, lx, ly, r, i, j)
  {
    if InBounds(m, lx, ly) && exists i, j :: 0 <= i < |m| && 0 <= j < Width(m) && Hit(m, lx, ly, r, i, j) {
      var i, j :| 0 <= i < |m| && 0 <= j < Width(m) && Hit(m, lx, ly, r, i, j);
      WindowHolds(m, lx, ly, r, i, j);
    }
  }

  /** A hit of the whole mask lies in the clamped window. */
  lemma WindowHolds(m: Mask, lx: int, ly: int, r: int, i: int, j: int)
    requires Rectangular(m) && 0 <= r && 0 <= i < |m| && 0 <= j < Width(m)
    requires Hit(m, lx, ly, r, i, j)
    ensures Touched(m, lx, ly, r) || !InBounds(m, lx, ly)
  {
    var di, dj := i - ly, j - lx;
    assert di * di <= r * r && dj * dj <= r * r by {
      assert di * di + dj * dj <= r * r;
      assert di * di >= 0 && dj * dj >= 0;
    }
    SquareBound(di, r);
    SquareBound(dj, r);
  }

  /** A negative radius gives an empty window, so nothing is touched. */
  lemma NegativeRadius(m: Mask, lx: int, ly: int, r: int)
    requires Rectangular(m) && r < 0
    ensures !Touched(m, lx, ly, r)
  {
  }

  /** A set pixel under the point itself is always found. */
  lemma CentreHit(m: Mask, lx: int, ly: int, r: int)
    requires Rectangular(m) && InBounds(m, lx, ly) && 0 <= r
    requires m[ly][lx] == 255
    ensures Touched(m, lx, ly, r)
  {
    assert Hit(m, lx, ly, r, ly, lx);
  }

  /**
   * Lines 53-72 of is_touched: the bounds check and the nested scan of the
   * clamped window, returning at the first hit.
   */
  method Scan(m: Mask, lx: int, ly: int, r: int) returns (hit: bool)
    requires Rectangular(m)
    ensures hit == Touched(m, lx, ly, r)
  {
    if lx < 0 || ly < 0 || lx >= Width(m) || ly >= |m| {
      return false;
    }
    var xMin, xMax := Max(lx - r, 0), Min(lx + r, Width(m) - 1);
    var yMin, yMax := Max(ly - r, 0), Min(ly + r, |m| - 1);
    var i := yMin;
    while i <= yMax
      invariant yMin <= i && (i <= yMax + 1 || i == yMin)
      invariant forall a, b :: yMin <= a < i && xMin <= b <= xMax ==> !Hit(m, lx, ly, r, a, b)
    {
      var j := xMin;
      while j <= xMax
        invariant xMin <= j && (j <= xMax + 1 || j == xMin)
        invariant forall b :: xMin <= b < j ==> !Hit(m, lx, ly, r, i, b)
      {
        if (i - ly) * (i - ly) + (j - lx) * (j - lx) <= r * r {
          if m[i][j] == 255 {
            assert Hit(m, lx, ly, r, i, j);
            return true;
          }
        }
        j := j + 1;
      }
      i := i + 1;
    }
    return false;
  }

  class DrawableElement {
    /** The tool that created the element. */
    var tool: string
    var image: Option<Image>
    var touchMask: Option<Mask>
    /** (height, width) of the element's image. */
    var size: Option<(int, int)>
    var transformation: Option<Matrix>

    /** The touch mask, when there is one, is a rectangular array. */
    predicate Valid()
      reads this
    {
      touchMask.Some? ==> Rectangular(touchMask.value)
    }

    constructor (tool: string, image: Option<Image>, size: Option<(int, int)>,
                 touchMask: Option<Mask>, transformation: Option<Matrix>)
      requires touchMask.Some? ==> Rectangular(touchMask.value)
      ensures Valid()
      ensures this.tool == tool && this.image == image && this.size == size
      ensures this.touchMask == touchMask && this.transformation == transformation
    {
      this.tool := tool;
      this.image := image;
      this.size := size;
      this.touchMask := touchMask;
      this.transformation := transformation;
    }

    /**
     * clear_image: fails (ValueError) without a size, and also when numpy
     * refuses a negative dimension; otherwise blanks the image (four
     * channels) and the touch mask to the element's size.
     */
    method ClearImage() returns (ok: bool)
      requires Valid()
      modifies this`image, this`touchMask
      ensures ok <==> size.Some? && size.value.0 >= 0 && size.value.1 >= 0
      ensures ok ==> && image == Some(Zeros(size.value.0, size.value.1, 4))
                     && touchMask == Some(ZeroMask(size.value.0, size.value.1))
      ensures !ok ==> image == old(image) && touchMask == old(touchMask)
      ensures Valid()
    {
      if size.None? || size.value.0 < 0 || size.value.1 < 0 {
        return false;
      }
      var (height, width) := size.value;
      image := Some(Zeros(height, width, 4));
      touchMask := Some(ZeroMask(height, width));
      ok := true;
    }

    /** get_transformation: sets the identity the first time, then returns the stored matrix. */
    method GetTransformation() returns (t: Matrix)
      modifies this`transformation
      ensures t == Effective(old(transformation))
      ensures transformation == Some(t)
    {
      if transformation.None? {
        transformation := Some(Identity);
      }
      t := transformation.value;
    }

    /** is_touched's verdict in the current state. */
    predicate TouchedBy(x: int, y: int, r: int, toLocal: Locator)
      reads this
      requires Valid()
    {
      && touchMask.Some?
      && var (lx, ly) := toLocal(Effective(transformation), x, y);
         Touched(touchMask.value, lx, ly, r)
    }

    /**
     * is_touched: false without a touch mask; otherwise the point is mapped
     * into the mask (which fixes the transformation) and the disk scanned.
     */
    method IsTouched(x: int, y: int, r: int, toLocal: Locator) returns (hit: bool)
      requires Valid()
      modifies this`transformation
      ensures hit == TouchedBy(x, y, r, toLocal)
      ensures Effective(transformation) == Effective(old(transformation))
      ensures transformation == if touchMask.None? then old(transformation) else Some(Effective(old(transformation)))
    {
      if touchMask.None? {
        return false;
      }
      var t := GetTransformation();
      var (lx, ly) := toLocal(t, x, y);
      hit := Scan(touchMask.value, lx, ly, r);
    }
  }
}
