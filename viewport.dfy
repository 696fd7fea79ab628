/** The visible rectangle of the complex plane and how clicks and scrolling
    move it. Both variants keep the same four doubles (`rStart`, `iStart`,
    `width`, `height`) and apply the same pan and zoom formulas; the job
    variant also moves the iteration cap on every zoom. */
module Viewport {
  import opened Numeric
  import opened ComplexPlane

  /** `rStart`, `iStart`: the corner of pixel (0, 0); `width`, `height`: the
      extent of the rectangle along the real and imaginary axes. */
  datatype View = View(rStart: real, iStart: real, width: real, height: real)

  const START_WIDTH: real := 4.5
  const START_R: real := -2.0
  const START_I: real := -1.25
  const ZOOM_DIVISOR: int := 10
  const START_MAX_ITERATIONS: Int32 := 100

  /** The view `Start` sets up for a screen of the given size. */
  function StartView(screenWidth: int, screenHeight: int): (v: View)
    requires screenWidth > 0
    ensures v.rStart == START_R && v.iStart == START_I && v.width == START_WIDTH
    ensures v.height * screenWidth as real == v.width * screenHeight as real
  {
    View(START_R, START_I, START_WIDTH, START_WIDTH * screenHeight as real / screenWidth as real)
  }

  /** The point of the plane shown at screen position (px, py) on a screen of
      w x h pixels: `rStart + width * px / w`, `iStart + height * py / h`. The
      render loops evaluate it at whole pixels, the pan handler at the mouse
      position. */
  function PointAt(v: View, px: real, py: real, w: int, h: int): Complex
    requires w > 0 && h > 0
  {
    Complex(v.rStart + v.width * px / w as real, v.iStart + v.height * py / h as real)
  }

  /** The point at the middle of the rectangle. */
  function Centre(v: View): Complex {
    Complex(v.rStart + v.width / 2.0, v.iStart + v.height / 2.0)
  }

  /** A click at (mouseX, mouseY): the corner moves by the click's offset from
      the screen's middle, as a fraction of the screen, times the extent. The
      effect is that the clicked point becomes the new centre. */
  function Pan(v: View, mouseX: real, mouseY: real, screenWidth: int, screenHeight: int): (r: View)
    requires screenWidth > 0 && screenHeight > 0
    ensures r.width == v.width && r.height == v.height
    ensures Centre(r) == PointAt(v, mouseX, mouseY, screenWidth, screenHeight)
  {
    var w, h := screenWidth as real, screenHeight as real;
    var r := v.(rStart := v.rStart + (mouseX - w / 2.0) / w * v.width,
                iStart := v.iStart + (mouseY - h / 2.0) / h * v.height);
    assert r.rStart + r.width / 2.0 == v.rStart + v.width * mouseX / w by {
      PanOffset(v.width, mouseX, w);
    }
    assert r.iStart + r.height / 2.0 == v.iStart + v.height * mouseY / h by {
      PanOffset(v.height, mouseY, h);
    }
    r
  }

  lemma PanOffset(extent: real, p: real, s: real)
    requires s > 0.0
    ensures (p - s / 2.0) / s * extent + extent / 2.0 == extent * p / s
  {
    var t := p / s;
    assert p == t * s;
    assert p - s / 2.0 == (t - 0.5) * s;
    DivCancel(t - 0.5, s);
    assert extent * p == (extent * t) * s;
    DivCancel(extent * t, s);
  }

  lemma DivCancel(y: real, s: real)
    requires s != 0.0
    ensures y * s / s == y
  {
  }

  /** A scroll by `delta`: both extents shrink by extent * delta / zoom and the
      corner moves by half of that, so the centre stays where it was. */
  function Zoom(v: View, delta: real, zoom: int): (r: View)
    requires zoom != 0
    ensures Centre(r) == Centre(v)
    ensures r.width == v.width * (1.0 - delta / zoom as real)
    ensures r.height == v.height * (1.0 - delta / zoom as real)
  {
    var wFactor := v.width * delta / zoom as real;
    var hFactor := v.height * delta / zoom as real;
    View(v.rStart + wFactor / 2.0, v.iStart + hFactor / 2.0, v.width - wFactor, v.height - hFactor)
  }

  /** The job variant's cap after a scroll: 3 more when scrolling in, 3 fewer
      otherwise, with no floor; the addition is on a C# `int`. */
  function ZoomIterations(maxIterations: Int32, delta: real): (r: Int32)
    ensures delta > 0.0 && maxIterations <= INT32_MAX - 3 ==> r == maxIterations + 3
    ensures delta <= 0.0 && maxIterations >= INT32_MIN + 3 ==> r == maxIterations - 3
  {
    if delta > 0.0 then Wrap32(maxIterations as int + 3) else Wrap32(maxIterations as int - 3)
  }

  /** A click in the middle of the screen leaves the view as it is. */
  lemma PanAtScreenCentre(v: View, screenWidth: int, screenHeight: int)
    requires screenWidth > 0 && screenHeight > 0
    ensures Pan(v, screenWidth as real / 2.0, screenHeight as real / 2.0, screenWidth, screenHeight) == v
  {
  }

  /** Zooming keeps the extents positive exactly when the scroll step is
      below the divisor: a step of `zoom` or more collapses or flips the view. */
  lemma ZoomKeepsExtentPositive(v: View, delta: real, zoom: int)
    requires zoom > 0 && v.width > 0.0 && v.height > 0.0
    ensures Zoom(v, delta, zoom).width > 0.0 <==> delta < zoom as real
    ensures Zoom(v, delta, zoom).height > 0.0 <==> delta < zoom as real
  {
    var d := zoom as real;
    var f := 1.0 - delta / d;
    if delta < d {
      assert delta / d < d / d;
    } else {
      assert delta / d >= d / d;
    }
    PositiveProduct(v.width, f);
    PositiveProduct(v.height, f);
  }

  lemma PositiveProduct(a: real, b: real)
    requires a > 0.0
    ensures a * b > 0.0 <==> b > 0.0
  {
    if b <= 0.0 {
      assert a * b <= 0.0;
    }
  }

  /** Scrolling in (0 < delta < zoom, so the view does not flip) shows a
      rectangle strictly inside the old one. */
  lemma ZoomInNests(v: View, delta: real, zoom: int)
    requires zoom > 0 && v.width > 0.0 && v.height > 0.0
    requires 0.0 < delta < zoom as real
    ensures var r := Zoom(v, delta, zoom);
      && v.rStart < r.rStart && r.rStart + r.width < v.rStart + v.width
      && v.iStart < r.iStart && r.iStart + r.height < v.iStart + v.height
  {
    var r := Zoom(v, delta, zoom);
    var d := delta / zoom as real;
    assert 0.0 < d < 1.0;
    assert r.rStart == v.rStart + v.width * d / 2.0;
    assert r.iStart == v.iStart + v.height * d / 2.0;
    assert v.width * d > 0.0 && v.height * d > 0.0;
  }

  /** Whole pixels further right or further up map to larger real and
      imaginary parts (for a view with positive extents). */
  lemma PointAtMonotone(v: View, x1: int, x2: int, y1: int, y2: int, w: int, h: int)
    requires w > 0 && h > 0 && v.width > 0.0 && v.height > 0.0
    requires x1 < x2 && y1 < y2
    ensures PointAt(v, x1 as real, y1 as real, w, h).re < PointAt(v, x2 as real, y1 as real, w, h).re
    ensures PointAt(v, x1 as real, y1 as real, w, h).im < PointAt(v, x1 as real, y2 as real, w, h).im
  {
    MonotoneScale(v.width, x1 as real, x2 as real, w as real);
    MonotoneScale(v.height, y1 as real, y2 as real, h as real);
  }

  lemma MonotoneScale(extent: real, a: real, b: real, s: real)
    requires extent > 0.0 && s > 0.0 && a < b
    ensures extent * a / s < extent * b / s
  {
    assert extent * b - extent * a == extent * (b - a);
    assert extent * (b - a) > 0.0;
  }

  /** The job variant's cap after n scrolls out from m, while no wrap occurs. */
  function ZoomOuts(maxIterations: Int32, n: nat): Int32 {
    if n == 0 then maxIterations else ZoomIterations(ZoomOuts(maxIterations, n - 1), -1.0)
  }

  lemma {:induction false} ZoomOutsSubtract(maxIterations: Int32, n: nat)
    requires maxIterations - 3 * n >= INT32_MIN
    ensures ZoomOuts(maxIterations, n) == maxIterations - 3 * n
  {
    if n > 0 {
      ZoomOutsSubtract(maxIterations, n - 1);
    }
  }

  /** From the start-up cap of 100, 33 scrolls out leave a cap of 1 and the
      34th makes it negative; nothing in the handler stops it. */
  lemma StartCapGoesNegative()
    ensures ZoomOuts(START_MAX_ITERATIONS, 33) == 1
    ensures ZoomOuts(START_MAX_ITERATIONS, 34) == -2
  {
    ZoomOutsSubtract(START_MAX_ITERATIONS, 33);
    ZoomOutsSubtract(START_MAX_ITERATIONS, 34);
  }
}
