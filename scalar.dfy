/** The scalar variant of the viewer (`Mandelbrot`): one escape-time loop per
    pixel, no cardioid shortcut, the float palette, and pixels written
    straight into the texture column by column. */
module Scalar {
  import opened Numeric
  import opened ComplexPlane
  import opened EscapeTime
  import opened Colors
  import opened Viewport
  import opened Grid

  /** The colour the scalar variant draws at pixel (x, y) of a w x h texture. */
  function PixelColor(v: View, maxIterations: Int32, x: int, y: int, w: int, h: int): ColorF
    requires w > 0 && h > 0
  {
    SetColorF(EscapeCount(PointAt(v, x as real, y as real, w, h), maxIterations), maxIterations)
  }

  /** Where the scalar picture differs from the job picture, the pixel shows a
      point that passes the cardioid test: off the cardioid both variants
      compute the same count and draw the same colour. */
  lemma SameColorOffCardioid(v: View, maxIterations: Int32, x: int, y: int, w: int, h: int)
    requires w > 0 && h > 0
    ensures var c := PointAt(v, x as real, y as real, w, h);
      PixelColor(v, maxIterations, x, y, w, h) != ToColorF(SetColor32(JobEscapeCount(c, maxIterations), maxIterations))
      ==> InCardioid(c)
  {
    var c := PointAt(v, x as real, y as real, w, h);
    JobDiffersOnlyByShortcut(c, maxIterations);
    ScalarColorIsJobColorScaled(EscapeCount(c, maxIterations), maxIterations);
  }

  /** The `Mandelbrot` component. `pixels` stands for the texture made in
      `Start`, indexed [x, y] as `SetPixel(x, y, ...)` addresses it. */
  class Mandelbrot {
    var height: real
    var width: real
    var rStart: real
    var iStart: real
    var maxIterations: Int32
    var zoom: int
    const pixels: array2<ColorF>

    ghost predicate Valid()
      reads this
    {
      pixels.Length0 > 0 && pixels.Length1 > 0 && zoom == ZOOM_DIVISOR
    }

    function View(): View
      reads this
    {
      Viewport.View(rStart, iStart, width, height)
    }

    /** `Start`: the start-up view and cap, a texture the size of the screen,
        and the first frame drawn into it. */
    constructor (screenWidth: int, screenHeight: int)
      requires screenWidth > 0 && screenHeight > 0
      ensures Valid() && fresh(pixels)
      ensures pixels.Length0 == screenWidth && pixels.Length1 == screenHeight
      ensures View() == StartView(screenWidth, screenHeight)
      ensures maxIterations == START_MAX_ITERATIONS
      ensures forall x, y :: 0 <= x < screenWidth && 0 <= y < screenHeight ==>
        pixels[x, y] == PixelColor(View(), maxIterations, x, y, screenWidth, screenHeight)
    {
      width := START_WIDTH;
      height := START_WIDTH * screenHeight as real / screenWidth as real;
      rStart := START_R;
      iStart := START_I;
      zoom := ZOOM_DIVISOR;
      maxIterations := START_MAX_ITERATIONS;
      pixels := new ColorF[screenWidth, screenHeight];
      new;
      ghost var order := RunMandelbrot();
    }

    /** One frame of input: a click pans and redraws; then a scroll zooms and
        redraws. The cap never changes in this variant. */
    method Update(mouseDown: bool, mouseX: real, mouseY: real, scrollY: real,
                  screenWidth: int, screenHeight: int)
      requires Valid() && screenWidth > 0 && screenHeight > 0
      modifies this, pixels
      ensures Valid() && maxIterations == old(maxIterations)
      ensures var panned := if mouseDown then Pan(old(View()), mouseX, mouseY, screenWidth, screenHeight)
                            else old(View());
        View() == if scrollY != 0.0 then Zoom(panned, scrollY, zoom) else panned
      ensures mouseDown || scrollY != 0.0 ==>
        forall x, y :: 0 <= x < pixels.Length0 && 0 <= y < pixels.Length1 ==>
          pixels[x, y] == PixelColor(View(), maxIterations, x, y, pixels.Length0, pixels.Length1)
      ensures !mouseDown && scrollY == 0.0 ==> unchanged(pixels)
    {
      if mouseDown {
        PanView(mouseX, mouseY, screenWidth, screenHeight);
        ghost var order := RunMandelbrot();
      }

      if scrollY != 0.0 {
        ZoomView(scrollY);
        ghost var order := RunMandelbrot();
      }
    }

    /** The click block of `Update`: the corner moves so that the clicked
        point becomes the centre. */
    method PanView(mouseX: real, mouseY: real, screenWidth: int, screenHeight: int)
      requires screenWidth > 0 && screenHeight > 0
      modifies this
      ensures View() == Pan(old(View()), mouseX, mouseY, screenWidth, screenHeight)
      ensures maxIterations == old(maxIterations) && zoom == old(zoom)
    {
      var sw, sh := screenWidth as real, screenHeight as real;
      rStart := rStart + (mouseX - (sw / 2.0)) / sw * width;
      iStart := iStart + (mouseY - (sh / 2.0)) / sh * height;
    }

    /** The scroll block of `Update`: both extents shrink by a tenth of the
        scroll step around the centre; the cap stays. */
    method ZoomView(scrollY: real)
      requires zoom != 0
      modifies this
      ensures zoom == old(zoom) && maxIterations == old(maxIterations)
      ensures View() == Zoom(old(View()), scrollY, zoom)
    {
      var wFactor := width * scrollY / zoom as real;
      var hFactor := height * scrollY / zoom as real;
      width := width - wFactor;
      height := height - hFactor;
      rStart := rStart + wFactor / 2.0;
      iStart := iStart + hFactor / 2.0;
    }

    /** `RunMandelbrot`: columns outside, rows inside, each pixel set to the
        colour of its point. The ghost result `order` lists the pixels in the
        order they are drawn. */
    method RunMandelbrot() returns (ghost order: seq<(int, int)>)
      requires Valid()
      modifies pixels
      ensures order == ColumnMajorVisits(pixels.Length0, pixels.Length1)
      ensures forall x, y :: 0 <= x < pixels.Length0 && 0 <= y < pixels.Length1 ==>
        pixels[x, y] == PixelColor(View(), maxIterations, x, y, pixels.Length0, pixels.Length1)
    {
      var w, h := pixels.Length0, pixels.Length1;
      order := [];
      var x := 0;
      while x != w
        invariant 0 <= x <= w
        invariant order == ColumnMajorVisits(x, h)
        invariant forall xx, yy :: 0 <= xx < x && 0 <= yy < h ==>
          pixels[xx, yy] == PixelColor(View(), maxIterations, xx, yy, w, h)
      {
        var y := 0;
        while y != h
          invariant 0 <= y <= h
          invariant order == ColumnMajorVisits(x, h) + seq(y, yy => (x, yy))
          invariant forall xx, yy :: 0 <= xx < x && 0 <= yy < h ==>
            pixels[xx, yy] == PixelColor(View(), maxIterations, xx, yy, w, h)
          invariant forall yy :: 0 <= yy < y ==>
            pixels[x, yy] == PixelColor(View(), maxIterations, x, yy, w, h)
        {
          // rStart + width * x / w and iStart + height * y / h
          var c := PointAt(View(), x as real, y as real, w, h);
          var count := MandelbrotFunction(c.re, c.im);
          pixels[x, y] := SetColorF(count, maxIterations);
          order := order + [(x, y)];
          assert seq(y + 1, yy => (x, yy)) == seq(y, yy => (x, yy)) + [(x, y)];
          y := y + 1;
        }
        x := x + 1;
      }
    }

    /** `MandelbrotFunction(x, y)`: the escape count of c = x + yi under the
        current cap. The loop index `i` and the counter `iteration` are both
        32-bit `int`s and move together, so the two return paths agree. */
    method MandelbrotFunction(x: real, y: real) returns (count: Int32)
      ensures count == EscapeCount(Complex(x, y), maxIterations)
    {
      var iteration: Int32 := 0;
      var z := ZERO;

      ghost var c := Complex(x, y);
      ghost var t := Trips(maxIterations);
      ghost var k: nat := 0;
      EscapeFromOrbit(c, 0, t);
      var i: Int32 := 0;
      while i != maxIterations
        invariant k <= t
        invariant i == Wrap32(k) && iteration == Wrap32(k)
        invariant EscapeFrom(c, z, k, t) == FirstEscape(c, 0, t)
        decreases t - k
      {
        z := Step(z, Complex(x, y));
        if Escaped(z) {
          assert Wrap32(k) == EscapeCount(c, maxIterations);
          return i;
        }
        iteration := Wrap32(iteration as int + 1);
        WrapSucc(k);
        i := Wrap32(i as int + 1);
        k := k + 1;
      }
      assert k == t;
      return iteration;
    }
  }
}
