/**
 * Images as the numpy arrays of the source: an image is rows of pixels,
 * each pixel a list of channel values; a touch mask is rows of single
 * values. Pixel arithmetic is not modelled; only the shapes and the
 * all-zero arrays that `np.zeros` and `np.zeros_like` create.
 */
module Images {
  type Image = seq<seq<seq<int>>>
  type Mask = seq<seq<int>>

  /** np.zeros((h, w, c)): h rows of w pixels of c zero channels. */
  function Zeros(h: nat, w: nat, c: nat): (img: Image)
    ensures |img| == h
    ensures forall i :: 0 <= i < h ==> |img[i]| == w
    ensures forall i, j :: 0 <= i < h && 0 <= j < w ==> img[i][j] == seq(c, _ => 0)
  {
    seq(h, _ => seq(w, _ => seq(c, _ => 0)))
  }

  /** np.zeros((h, w)): an all-zero mask of h rows and w columns. */
  function ZeroMask(h: nat, w: nat): (m: Mask)
    ensures |m| == h
    ensures forall i :: 0 <= i < h ==> m[i] == seq(w, _ => 0)
  {
    seq(h, _ => seq(w, _ => 0))
  }

  /** np.zeros_like(img): the same shape as `img`, every value zero. */
  function ZerosLike(img: Image): (z: Image)
    ensures |z| == |img|
    ensures forall i :: 0 <= i < |img| ==> |z[i]| == |img[i]|
    ensures forall i, j :: 0 <= i < |img| && 0 <= j < |img[i]| ==> z[i][j] == seq(|img[i][j]|, _ => 0)
  {
    seq(|img|, i requires 0 <= i < |img| => seq(|img[i]|, j requires 0 <= j < |img[i]| => seq(|img[i][j]|, _ => 0)))
  }
}
