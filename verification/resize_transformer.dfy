/** The resize strategy for the minimised preview: instead of scaling the
    view it rewrites the resizable view's layout params from the vertical
    drag offset. */
module ResizeTransformer {
  import opened JavaNum
  import opened Transformer

  /** The layout params sentinel asking a view to fill its parent. */
  const MATCH_PARENT: int := -1

  /** The frame-layout params of the resizable view. */
  datatype LayoutParams = LayoutParams(
    width: int,
    height: int,
    leftMargin: int,
    topMargin: int,
    rightMargin: int,
    bottomMargin: int,
    gravity: int)

  /** A view's bounds inside its parent. */
  datatype Bounds = Bounds(left: int, top: int, right: int, bottom: int)

  /** What one update writes: the new layout params and the bounds the
      drag view is laid out with again. */
  datatype Resized = Resized(params: LayoutParams, dragBounds: Bounds)

  /** Both scale factors can be divided by. */
  predicate HasUsableFactors(c: Config) {
    XScaleFactor(c) != 0.0 && YScaleFactor(c) != 0.0
  }

  /** One side of the resized preview: the measured length times the
      interpolated scale, cast to int; the parent-filling sentinel when
      maximised. */
  function ResizedLength(original: int, factor: real, offset: real): (n: int)
    requires offset == 0.0 || factor != 0.0
    ensures offset == 0.0 ==> n == MATCH_PARENT
    ensures offset != 0.0 ==> n == ScaleLength(original, CalculateScale(offset, factor))
  {
    if offset == 0.0 then MATCH_PARENT
    else ScaleLength(original, CalculateScale(offset, factor))
  }

  /** Fully minimised, a side is the measured length divided by the factor. */
  lemma ResizedLengthMinimized(original: int, factor: real)
    requires factor != 0.0
    ensures ResizedLength(original, factor, 1.0) == ScaleLength(original, 1.0 / factor)
  {
    assert CalculateScale(1.0, factor) == 1.0 / factor;
  }

  /** A margin scaled by the offset: nothing when maximised, the whole
      margin when minimised, and never more than the margin in between. */
  function ScaledMargin(margin: int, offset: real): (m: int)
    ensures offset == 0.0 ==> m == 0
    ensures offset == 1.0 && IsInt(margin) ==> m == margin
    ensures 0.0 <= offset <= 1.0 && 0 <= margin ==> 0 <= m <= margin
  {
    MarginWithinConfigured(margin, offset);
    ScaleLength(margin, offset)
  }

  /** A non-negative margin scaled by an offset in [0, 1] stays between
      zero and the margin. */
  lemma {:induction false} MarginWithinConfigured(margin: int, offset: real)
    ensures 0.0 <= offset <= 1.0 && 0 <= margin ==>
      0 <= ScaleLength(margin, offset) <= margin
    ensures offset == 1.0 && IsInt(margin) ==> ScaleLength(margin, offset) == margin
  {
    if offset == 1.0 && IsInt(margin) {
      FloatToIntOfInt(margin);
    }
    if 0.0 <= offset <= 1.0 && 0 <= margin {
      var m := margin as real;
      var x := m * offset;
      assert 0.0 <= x;
      assert x <= m by {
        assert m * (1.0 - offset) == m - x;
        assert 0.0 <= m * (1.0 - offset);
      }
      FloatToIntMonotone(0.0, x);
      FloatToIntMonotone(x, m);
      FloatToIntOfInt(0);
      if IsInt(margin) {
        FloatToIntOfInt(margin);
      }
    }
  }

  function UpdateScaleAndPosition(c: Config, lp: LayoutParams, drag: Bounds, offset: real): (r: Resized)
    requires offset == 0.0 || HasUsableFactors(c)
    // maximised: the view fills its parent
    ensures offset == 0.0 ==> r.params.width == MATCH_PARENT && r.params.height == MATCH_PARENT
    // elsewhere: the measured size times the interpolated scale, cast to int
    ensures r.params.width == ResizedLength(c.originalWidth, XScaleFactor(c), offset)
    ensures r.params.height == ResizedLength(c.originalHeight, YScaleFactor(c), offset)
    ensures offset != 0.0 ==> r.params.width == ScaleLength(c.originalWidth, ScaleX(c, offset))
    ensures offset != 0.0 ==> r.params.height == ScaleLength(c.originalHeight, ScaleY(c, offset))
    // margins grow from nothing to the configured margins
    ensures offset == 0.0 ==> r.params.bottomMargin == 0 && r.params.rightMargin == 0
    ensures offset == 1.0 && IsInt(c.marginBottom) ==> r.params.bottomMargin == c.marginBottom
    ensures offset == 1.0 && IsInt(c.marginRight) ==> r.params.rightMargin == c.marginRight
    ensures 0.0 <= offset <= 1.0 && 0 <= c.marginBottom ==> 0 <= r.params.bottomMargin <= c.marginBottom
    ensures 0.0 <= offset <= 1.0 && 0 <= c.marginRight ==> 0 <= r.params.rightMargin <= c.marginRight
    // nothing else in the params changes, and the drag view keeps its bounds
    ensures r.params.leftMargin == lp.leftMargin && r.params.topMargin == lp.topMargin
    ensures r.params.gravity == lp.gravity
    ensures r.dragBounds == drag
  {
    var fx := XScaleFactor(c);
    var fy := YScaleFactor(c);
    var width := ResizedLength(c.originalWidth, fx, offset);
    var height := ResizedLength(c.originalHeight, fy, offset);
    var bottomMargin := ScaledMargin(c.marginBottom, offset);
    var rightMargin := ScaledMargin(c.marginRight, offset);
    var params := LayoutParams(width, height, lp.leftMargin, lp.topMargin,
                               rightMargin, bottomMargin, lp.gravity);
    Resized(params, Bounds(drag.left, drag.top, drag.right, drag.bottom))
  }

  /** Scaling a length by the reciprocal of (length / target) gives the
      target back. */
  lemma {:induction false} ReciprocalRatio(length: real, target: real)
    requires length != 0.0 && target != 0.0
    ensures length * (1.0 / (length / target)) == target
  {
    var f := length / target;
    assert f * target == length;
    var k := 1.0 / f;
    assert k * f == 1.0;
    calc {
      length * k;
      (f * target) * k;
      (k * f) * target;
      target;
    }
  }

  /** When the scale factor is the ratio of the measured length to a
      positive target length, the fully minimised side is the target. */
  lemma {:induction false} ResizedLengthReachesTarget(original: int, target: int)
    requires target > 0 && original != 0 && IsInt(target)
    ensures ResizedLength(original, original as real / target as real, 1.0) == target
  {
    var f := original as real / target as real;
    assert f != 0.0;
    assert CalculateScale(1.0, f) == 1.0 / f;
    ReciprocalRatio(original as real, target as real);
    assert original as real * CalculateScale(1.0, f) == target as real;
    FloatToIntOfInt(target);
  }

  /** Without a fixed minimum size, the minimised height plus margin is the
      fully minimised side computed from the configured vertical factor. */
  lemma {:induction false} ScaledMinHeightPlusMargin(c: Config)
    requires !HasNonZeroMinSize(c) && c.yScaleFactor != 0.0
    ensures MinHeightPlusMargin(c) == ResizedLength(c.originalHeight, c.yScaleFactor, 1.0) + c.marginBottom
  {
    assert YScaleFactor(c) == c.yScaleFactor;
  }

  /** Fully minimised, the resized preview is exactly as tall as the
      transformer's minimised height plus margin says, as long as the two
      tests on the minimum size agree (both dimensions positive, or one of
      them zero). */
  lemma {:induction false} MinimizedFootprint(c: Config, lp: LayoutParams, drag: Bounds)
    requires HasPositiveMinSize(c) || c.minWidth == 0 || c.minHeight == 0
    requires HasUsableFactors(c)
    requires IsInt(c.minHeight) && IsInt(c.marginBottom)
    ensures var r := UpdateScaleAndPosition(c, lp, drag, 1.0);
      r.params.height + r.params.bottomMargin == MinHeightPlusMargin(c)
  {
    var r := UpdateScaleAndPosition(c, lp, drag, 1.0);
    var f := YScaleFactor(c);
    assert r.params.bottomMargin == c.marginBottom;
    assert r.params.height == ResizedLength(c.originalHeight, f, 1.0);
    if HasPositiveMinSize(c) {
      assert f == c.originalHeight as real / c.minHeight as real;
      assert c.originalHeight != 0;
      ResizedLengthReachesTarget(c.originalHeight, c.minHeight);
    } else {
      assert f == c.yScaleFactor;
      ScaledMinHeightPlusMargin(c);
    }
  }

  /** With both minimum dimensions positive, the fully minimised preview is
      exactly the configured minimum width wide. */
  lemma {:induction false} MinimizedWidth(c: Config, lp: LayoutParams, drag: Bounds)
    requires HasPositiveMinSize(c) && c.originalWidth != 0 && c.originalHeight != 0
    requires IsInt(c.minWidth)
    ensures UpdateScaleAndPosition(c, lp, drag, 1.0).params.width == c.minWidth
  {
    assert XScaleFactor(c) == c.originalWidth as real / c.minWidth as real;
    ResizedLengthReachesTarget(c.originalWidth, c.minWidth);
  }

  /** With a negative minimum width the two tests disagree: the minimised
      height plus margin takes the configured minimum height, while the
      preview is sized by the configured scale factor. */
  lemma MinimizedFootprintWithNegativeMinWidth()
    ensures var c := Config(30, 30, 2.0, 2.0, 50, -1, 600, 400);
      var r := UpdateScaleAndPosition(c, LayoutParams(0, 0, 0, 0, 0, 0, 0), Bounds(0, 0, 600, 400), 1.0);
      MinHeightPlusMargin(c) == 80 && r.params.height + r.params.bottomMargin == 230
  {
    var c := Config(30, 30, 2.0, 2.0, 50, -1, 600, 400);
    assert ScaleY(c, 1.0) == 0.5;
    FloatToIntOfInt(200);
    FloatToIntOfInt(30);
  }
}
