/** The sizing arithmetic shared by both transform strategies of the
    minimised preview: scale factors, the linear scale interpolation, the
    minimised height plus margin and the horizontal-bound predicates. */
module Transformer {
  import opened JavaNum

  /** The transformer's configuration together with the measured size of
      the drag view (`originalWidth`, `originalHeight`). */
  datatype Config = Config(
    marginRight: int,
    marginBottom: int,
    xScaleFactor: real,
    yScaleFactor: real,
    minHeight: int,
    minWidth: int,
    originalWidth: int,
    originalHeight: int)

  /** True when both minimised dimensions are configured as positive sizes;
      they then override the configured scale factors. */
  predicate HasPositiveMinSize(c: Config) {
    c.minHeight > 0 && c.minWidth > 0
  }

  function XScaleFactor(c: Config): (f: real)
    ensures HasPositiveMinSize(c) ==> f == c.originalWidth as real / c.minWidth as real
    ensures !HasPositiveMinSize(c) ==> f == c.xScaleFactor
  {
    if HasPositiveMinSize(c) then c.originalWidth as real / c.minWidth as real
    else c.xScaleFactor
  }

  function YScaleFactor(c: Config): (f: real)
    ensures HasPositiveMinSize(c) ==> f == c.originalHeight as real / c.minHeight as real
    ensures !HasPositiveMinSize(c) ==> f == c.yScaleFactor
  {
    if HasPositiveMinSize(c) then c.originalHeight as real / c.minHeight as real
    else c.yScaleFactor
  }

  /** Scale applied at a vertical drag offset: 1 when maximised (offset 0),
      1/factor when minimised (offset 1), linear in between. */
  function CalculateScale(offset: real, factor: real): (s: real)
    requires factor != 0.0
    ensures s == (1.0 - offset) + offset * (1.0 / factor)
    ensures offset == 0.0 ==> s == 1.0
    ensures offset == 1.0 ==> s == 1.0 / factor
  {
    ((factor - 1.0) * (1.0 - offset) + 1.0) / factor
  }

  function ScaleX(c: Config, offset: real): real
    requires XScaleFactor(c) != 0.0
  {
    CalculateScale(offset, XScaleFactor(c))
  }

  function ScaleY(c: Config, offset: real): real
    requires YScaleFactor(c) != 0.0
  {
    CalculateScale(offset, YScaleFactor(c))
  }

  /** For a factor above one the preview only shrinks while it is dragged
      down: the scale never grows as the offset grows. */
  lemma {:induction false} CalculateScaleNonIncreasing(o1: real, o2: real, factor: real)
    requires factor > 1.0
    requires o1 <= o2
    ensures CalculateScale(o2, factor) <= CalculateScale(o1, factor)
  {
    var k := 1.0 / factor;
    assert k * factor == 1.0;
    assert 0.0 < k < 1.0;
    var d := o2 - o1;
    var e := 1.0 - k;
    assert CalculateScale(o1, factor) - CalculateScale(o2, factor) == d * e;
    assert 0.0 <= d * e;
  }

  /** A pixel length times a float scale, cast back to int. */
  function ScaleLength(length: int, scale: real): int {
    FloatToInt(length as real * scale)
  }

  /** Right margin setter: the value is rounded, which leaves an int as it is. */
  function SetMarginRight(c: Config, marginRight: int): (r: Config)
    requires IsInt(marginRight)
    ensures r.marginRight == marginRight
    ensures r.(marginRight := c.marginRight) == c
  {
    RoundOfInt(marginRight);
    c.(marginRight := Round(marginRight as real))
  }

  /** Bottom margin setter: the value is rounded, which leaves an int as it is. */
  function SetMarginBottom(c: Config, marginBottom: int): (r: Config)
    requires IsInt(marginBottom)
    ensures r.marginBottom == marginBottom
    ensures r.(marginBottom := c.marginBottom) == c
  {
    RoundOfInt(marginBottom);
    c.(marginBottom := Round(marginBottom as real))
  }

  /** The configured dimensions that make the minimised height a fixed
      number. Unlike `HasPositiveMinSize`, this test only asks for nonzero
      values. */
  predicate HasNonZeroMinSize(c: Config) {
    c.minWidth != 0 && c.minHeight != 0
  }

  /** Height the minimised preview occupies, bottom margin included. */
  function MinHeightPlusMargin(c: Config): (h: int)
    requires HasNonZeroMinSize(c) || c.yScaleFactor != 0.0
    ensures HasNonZeroMinSize(c) ==> h == c.minHeight + c.marginBottom
  {
    if HasNonZeroMinSize(c) then c.minHeight + c.marginBottom
    else ScaleLength(c.originalHeight, ScaleY(c, 1.0)) + c.marginBottom
  }

  /** Without a fixed minimum size, the minimised height is the measured
      height divided by the CONFIGURED vertical factor: the minimum-size
      override of the factor never applies here. */
  lemma {:induction false} MinHeightPlusMarginFromFactor(c: Config)
    requires !HasNonZeroMinSize(c) && c.yScaleFactor != 0.0
    ensures MinHeightPlusMargin(c)
            == ScaleLength(c.originalHeight, 1.0 / c.yScaleFactor) + c.marginBottom
  {
    assert YScaleFactor(c) == c.yScaleFactor;
  }

  /** The drag view's right edge, less the right margin, is left of 60% of
      the parent width. */
  predicate IsNextToLeftBound(c: Config, right: int, parentWidth: int) {
    ((right - c.marginRight) as real) < parentWidth as real * 0.6
  }

  /** The drag view's right edge, less the right margin, is right of 125% of
      the parent width. */
  predicate IsNextToRightBound(c: Config, right: int, parentWidth: int) {
    ((right - c.marginRight) as real) > parentWidth as real * 1.25
  }

  /** The drag view's right edge touches the parent's right edge. */
  predicate IsViewAtRight(right: int, parentWidth: int) {
    right == parentWidth
  }

  /** A view is never next to both horizontal bounds at once. */
  lemma BoundsExclusive(c: Config, right: int, parentWidth: int)
    requires parentWidth >= 0
    ensures !(IsNextToLeftBound(c, right, parentWidth) && IsNextToRightBound(c, right, parentWidth))
  {
  }

  /** A view whose right edge sits at the parent's right edge is next to
      the left bound exactly when the right margin exceeds 40% of the
      parent width, and never next to the right bound when the margin is
      not negative. With the default 30 px margin a parent narrower than
      75 px already counts as next to the left bound. */
  lemma AtRightBounds(c: Config, right: int, parentWidth: int)
    requires IsViewAtRight(right, parentWidth)
    ensures IsNextToLeftBound(c, right, parentWidth) <==> c.marginRight as real > 0.4 * parentWidth as real
    ensures parentWidth >= 0 && c.marginRight >= 0 ==> !IsNextToRightBound(c, right, parentWidth)
  {
  }

  /** The default margin of 30 px in a parent 70 px wide: a view parked at
      the right edge is next to the left bound. */
  lemma DefaultMarginAtRightOfNarrowParent(c: Config)
    requires c.marginRight == 30
    ensures IsNextToLeftBound(c, 70, 70)
  {
    AtRightBounds(c, 70, 70);
  }
}
