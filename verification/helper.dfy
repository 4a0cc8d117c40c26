/**
 * The size helpers of the `CGSize` extension: `normalizedSize`, the zero
 * guards of `sizeThatFits(in:)` and `rectThatFits(in:)`, and `cornerRadius`.
 *
 * `AVMakeRect(aspectRatio:insideRect:)` is a foreign call; it is passed in as
 * the function `makeRect` and nothing is assumed about it.
 */
module Helper {
  import opened CoreGraphics

  /**
   * `CGSize.normalizedSize(width:height:maxWidth:)`: the width becomes
   * `maxWidth`; the height keeps the aspect ratio when that is possible and
   * positive, and is `maxWidth` otherwise.
   */
  function NormalizedSize(width: real, height: real, maxWidth: real): (r: Size)
    ensures r.width == maxWidth
    ensures r.height == maxWidth || r.height * width == height * maxWidth
  {
    var normalizedHeight :=
      if width > 0.0 then
        var calculatedHeight := height * (maxWidth / width);
        if calculatedHeight > 0.0 then calculatedHeight else maxWidth
      else
        maxWidth;
    Size(maxWidth, normalizedHeight)
  }

  /**
   * With a positive width and a positive scaled height, the result has the
   * aspect ratio of the input: `r.height / r.width == height / width`.
   */
  lemma NormalizedSizeKeepsAspectRatio(width: real, height: real, maxWidth: real)
    requires width > 0.0 && height * (maxWidth / width) > 0.0
    ensures var r := NormalizedSize(width, height, maxWidth);
      r.height == height * (maxWidth / width) && r.height * width == height * r.width && r.height > 0.0
  {
  }

  /**
   * Without a positive width (no division happens) or when the scaled height
   * is not positive, the height falls back to `maxWidth`.
   */
  lemma NormalizedSizeFallback(width: real, height: real, maxWidth: real)
    requires width <= 0.0 || height * maxWidth <= 0.0
    ensures NormalizedSize(width, height, maxWidth) == Size(maxWidth, maxWidth)
  {
    if width > 0.0 {
      var k := maxWidth / width;
      assert k * width == maxWidth;
      assert height * k * width == height * maxWidth;
    }
  }

  /** For a positive `maxWidth` the result is never degenerate. */
  lemma NormalizedSizePositive(width: real, height: real, maxWidth: real)
    requires maxWidth > 0.0
    ensures NormalizedSize(width, height, maxWidth).height > 0.0
  {
  }

  /** `sizeThatFits(in:)`: `.zero` for the `.zero` size, else the size of `AVMakeRect`'s rect. */
  function SizeThatFits(self: Size, size: Size, makeRect: (Size, Rect) -> Rect): (r: Size)
    ensures r == RectThatFits(self, Rect(PointZero, size), makeRect).size
  {
    if self == SizeZero then SizeZero else makeRect(self, Rect(PointZero, size)).size
  }

  /** `rectThatFits(in:)`: `.zero` for the `.zero` size, else `AVMakeRect`'s rect. */
  function RectThatFits(self: Size, rect: Rect, makeRect: (Size, Rect) -> Rect): (r: Rect)
    ensures r == RectZero <==> self == SizeZero || makeRect(self, rect) == RectZero
    ensures r == RectZero || r == makeRect(self, rect)
  {
    if self == SizeZero then RectZero else makeRect(self, rect)
  }

  /**
   * The `.zero` size never reaches `AVMakeRect` (which would give NaN): the
   * result is `.zero` whatever `AVMakeRect` would return.
   */
  lemma ZeroSizeNeverReachesMakeRect(size: Size, rect: Rect, f: (Size, Rect) -> Rect, g: (Size, Rect) -> Rect)
    ensures SizeThatFits(SizeZero, size, f) == SizeThatFits(SizeZero, size, g) == SizeZero
    ensures RectThatFits(SizeZero, rect, f) == RectThatFits(SizeZero, rect, g) == RectZero
  {
  }

  /** Only the exact `.zero` is short-circuited: a size with one zero side goes to `AVMakeRect`. */
  lemma OnlyExactZeroShortCircuits(self: Size, size: Size, rect: Rect, makeRect: (Size, Rect) -> Rect)
    requires self.width != 0.0 || self.height != 0.0
    ensures SizeThatFits(self, size, makeRect) == makeRect(self, Rect(PointZero, size)).size
    ensures RectThatFits(self, rect, makeRect) == makeRect(self, rect)
  {
  }

  /** `cornerRadius(fraction:)`: `min(width, height) * fraction`. */
  function CornerRadius(self: Size, fraction: real): (r: real)
    ensures r == fraction * self.width || r == fraction * self.height
    ensures self.width <= self.height ==> r == fraction * self.width
    ensures self.height <= self.width ==> r == fraction * self.height
  {
    (if self.width < self.height then self.width else self.height) * fraction
  }

  /** The radius depends on the two sides only, not on which is which. */
  lemma CornerRadiusSymmetric(w: real, h: real, fraction: real)
    ensures CornerRadius(Size(w, h), fraction) == CornerRadius(Size(h, w), fraction)
  {
  }

  /** A fraction in `[0, 1]` of non-negative sides gives a radius no larger than either side. */
  lemma CornerRadiusFits(self: Size, fraction: real)
    requires 0.0 <= self.width && 0.0 <= self.height && 0.0 <= fraction <= 1.0
    ensures 0.0 <= CornerRadius(self, fraction) <= self.width
    ensures CornerRadius(self, fraction) <= self.height
  {
    var m := if self.width < self.height then self.width else self.height;
    ProductNonNegative(m, fraction);
    ProductNonNegative(m, 1.0 - fraction);
    assert m * (1.0 - fraction) == m - m * fraction;
  }

  lemma ProductNonNegative(x: real, y: real)
    requires 0.0 <= x && 0.0 <= y
    ensures 0.0 <= x * y
  {
  }
}
