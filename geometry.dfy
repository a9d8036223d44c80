/**
 * The crop geometry of the live scanner: the size of the square taken from the
 * middle of each video frame (`_updateSourceRect`) and where that square starts
 * (the offset lines of `_scanFrame`).
 *
 * `Math.round(2 / 3 * m)` is computed exactly on integers. The offsets
 * `(w - s) / 2` may be half-integers, so a crop keeps its origin doubled.
 */
module Geometry {

  /** `Math.min(videoWidth, videoHeight)`. */
  function SmallestDimension(width: nat, height: nat): (m: nat)
    ensures m <= width && m <= height
    ensures m == width || m == height
  {
    if width <= height then width else height
  }

  /**
   * `Math.round(2 / 3 * m)`: the integer nearest to 2m/3. Two thirds of an
   * integer is never halfway between two integers (see `NeverHalfway`), so the
   * rounding direction of `Math.round` on ties never matters.
   */
  function SourceRectSize(m: nat): (s: nat)
    ensures 6 * s - 3 <= 4 * m < 6 * s + 3
    ensures s <= m
  {
    (4 * m + 3) / 6
  }

  /** `Math.round(x)` is the integer `n` with `n <= x + 1/2 < n + 1`; for x = 2m/3 that is `SourceRectSize(m)`. */
  lemma SourceRectSizeIsMathRound(m: nat)
    ensures var x := 2.0 / 3.0 * (m as real);
            SourceRectSize(m) as real <= x + 0.5 < SourceRectSize(m) as real + 1.0
  {
    var s := SourceRectSize(m);
    assert 6 * s <= 4 * m + 3 < 6 * s + 6;
    assert 6.0 * (s as real) <= 4.0 * (m as real) + 3.0 < 6.0 * (s as real) + 6.0;
  }

  /** Any integer within one half of 2m/3 is the source square's size: the rounding is unambiguous. */
  lemma NearestIsUnique(m: nat, n: int)
    requires 6 * n - 3 <= 4 * m < 6 * n + 3
    ensures n == SourceRectSize(m)
  {
  }

  /** 2m/3 is never of the form k + 1/2. */
  lemma NeverHalfway(m: nat, k: int)
    ensures 4 * m != 6 * k + 3
  {
    var d := 2 * m - 3 * k;
    assert 4 * m - (6 * k + 3) == 2 * d - 3;
    if d <= 1 {
      assert 2 * d - 3 < 0;
    } else {
      assert 2 * d - 3 > 0;
    }
  }

  /**
   * A square crop of a video frame. `x2` and `y2` are twice the coordinates of
   * its top-left corner, which are half-integers when `width - size` is odd;
   * they are negative when the square is larger than the frame.
   */
  datatype Crop = Crop(x2: int, y2: int, size: nat)

  /** The crop has equal margins on the left and the right, and at the top and the bottom. */
  predicate Centred(c: Crop, width: nat, height: nat)
  {
    c.x2 == 2 * width - (c.x2 + 2 * c.size) && c.y2 == 2 * height - (c.y2 + 2 * c.size)
  }

  /** The crop lies within the frame. */
  predicate InsideFrame(c: Crop, width: nat, height: nat)
  {
    0 <= c.x2 && c.x2 + 2 * c.size <= 2 * width && 0 <= c.y2 && c.y2 + 2 * c.size <= 2 * height
  }

  /** `x0 = (videoWidth - sourceRectSize) / 2`, `y0 = (videoHeight - sourceRectSize) / 2`, doubled. */
  function CropOf(width: nat, height: nat, size: nat): (c: Crop)
    ensures c.size == size && Centred(c, width, height)
  {
    Crop(width - size, height - size, size)
  }

  /**
   * A crop of the size `_updateSourceRect` computes from the current frame
   * size is centred and lies inside the frame; it keeps a margin on every
   * side once the smaller side exceeds 1 (with a smaller side of 1 the crop
   * is 1 pixel wide and fills that side).
   */
  lemma FreshCropInsideFrame(width: nat, height: nat)
    ensures var c := CropOf(width, height, SourceRectSize(SmallestDimension(width, height)));
            Centred(c, width, height) && InsideFrame(c, width, height) &&
            (SmallestDimension(width, height) > 1 ==> 0 < c.x2 && 0 < c.y2)
  {
  }

  /** The crop lies inside the frame exactly when its size fits the frame's smaller side. */
  lemma InsideFrameIff(width: nat, height: nat, size: nat)
    ensures InsideFrame(CropOf(width, height, size), width, height) <==> size <= SmallestDimension(width, height)
  {
  }
}
