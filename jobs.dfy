/** The job variant of the viewer (`MandelbrotJobs`): the per-index bodies of
    the two parallel jobs, the loops of `RunMandelbrot` that fill the
    coordinate buffers and copy the colour buffer, and the component itself
    with its `Start` and `Update`. The jobs are scheduled in parallel in the
    engine; each `Execute(r)` touches only slot r, so they are run here one
    index after the other. */
module Jobs {
  import opened Numeric
  import opened ComplexPlane
  import opened EscapeTime
  import opened Colors
  import opened Viewport
  import opened Grid

  /** The point that pixel number i of a w x h buffer (row-major) shows. */
  function PixelPoint(v: View, i: int, w: int, h: int): Complex
    requires w > 0 && h > 0
  {
    PointAt(v, (i % w) as real, (i / w) as real, w, h)
  }

  /** The flat index of pixel (x, y) lies in the buffer and shows the point at
      column x, row y. */
  lemma PixelPointAt(v: View, x: int, y: int, w: int, h: int)
    requires 0 <= x < w && 0 <= y < h
    ensures 0 <= Flatten(x, y, w) < w * h
    ensures PixelPoint(v, Flatten(x, y, w), w, h) == PointAt(v, x as real, y as real, w, h)
  {
    FlattenInverse(x, y, w, h);
  }

  /** The buffer `RunMandelbrot` hands to the texture: pixel i gets the colour
      of the job count of the point it shows. */
  function Frame(v: View, maxIterations: Int32, w: int, h: int): (f: seq<Color32>)
    requires w > 0 && h > 0
    ensures |f| == w * h
  {
    seq(w * h, i requires 0 <= i < w * h =>
      SetColor32(JobEscapeCount(PixelPoint(v, i, w, h), maxIterations), maxIterations))
  }

  /** Pixel (x, y) of the frame is the colour of the point at column x, row y. */
  lemma FrameAt(v: View, maxIterations: Int32, w: int, h: int, x: int, y: int)
    requires 0 <= x < w && 0 <= y < h
    ensures 0 <= Flatten(x, y, w) < |Frame(v, maxIterations, w, h)|
    ensures Frame(v, maxIterations, w, h)[Flatten(x, y, w)]
      == SetColor32(JobEscapeCount(PointAt(v, x as real, y as real, w, h), maxIterations), maxIterations)
  {
    FlattenInverse(x, y, w, h);
  }

  /** `Mandelbrot.Execute(r)`: slot r of `result` becomes the job count of
      (x[r], y[r]), and no other slot changes. */
  method MandelbrotExecute(x: array<real>, y: array<real>, maxIterations: Int32,
                           result: array<Int32>, r: int)
    requires 0 <= r < result.Length && r < x.Length && r < y.Length
    modifies result
    ensures result[..] == old(result[..])[r := JobEscapeCount(Complex(x[r], y[r]), maxIterations)]
  {
    result[r] := 0;
    var z := ZERO;
    ghost var c := Complex(x[r], y[r]);

    var q := (x[r] - 0.25) * (x[r] - 0.25) + y[r] * y[r];
    if q * (q + (x[r] - 0.25)) < 0.25 * (y[r] * y[r]) {
      assert InCardioid(c);
      result[r] := maxIterations;
      return;
    }
    assert !InCardioid(c);

    ghost var t := Trips(maxIterations);
    ghost var k: nat := 0;
    EscapeFromOrbit(c, 0, t);
    var i: Int32 := 0;
    while i != maxIterations
      invariant k <= t
      invariant i == Wrap32(k)
      invariant result[..] == old(result[..])[r := Wrap32(k)]
      invariant EscapeFrom(c, z, k, t) == FirstEscape(c, 0, t)
      decreases t - k
    {
      z := Step(z, Complex(x[r], y[r]));
      if Escaped(z) {
        assert Wrap32(k) == EscapeCount(c, maxIterations);
        return;
      }
      result[r] := Wrap32(result[r] as int + 1);
      WrapSucc(k);
      i := Wrap32(i as int + 1);
      k := k + 1;
    }
    assert k == t;
  }

  /** The escape job run over every index, one after the other. */
  method RunMandelbrotJob(x: array<real>, y: array<real>, maxIterations: Int32, result: array<Int32>)
    requires x.Length == result.Length && y.Length == result.Length
    modifies result
    ensures forall i :: 0 <= i < result.Length ==>
      result[i] == JobEscapeCount(Complex(x[i], y[i]), maxIterations)
  {
    var r := 0;
    while r < result.Length
      invariant 0 <= r <= result.Length
      invariant forall i :: 0 <= i < r ==> result[i] == JobEscapeCount(Complex(x[i], y[i]), maxIterations)
    {
      MandelbrotExecute(x, y, maxIterations, result, r);
      r := r + 1;
    }
  }

  /** `SetColor.Execute(r)`: slot r of `colors` becomes the colour of count
      `value[r]`, and no other slot changes. */
  method SetColorExecute(value: array<Int32>, maxIterations: Int32, colors: array<Color32>, r: int)
    requires 0 <= r < colors.Length && r < value.Length
    modifies colors
    ensures colors[..] == old(colors[..])[r := SetColor32(value[r], maxIterations)]
  {
    var color := Color32(0, 0, 0, 255);
    if value[r] != maxIterations {
      var colorNr := Rem16(value[r]);
      if 0 <= colorNr {
        var (red, green, blue) := JOB_PALETTE[colorNr];
        color := color.(r := red, g := green, b := blue);
      }
    }
    colors[r] := color;
  }

  /** The colour job run over every index, one after the other. */
  method RunSetColorJob(value: array<Int32>, maxIterations: Int32, colors: array<Color32>)
    requires value.Length == colors.Length
    modifies colors
    ensures forall i :: 0 <= i < colors.Length ==> colors[i] == SetColor32(value[i], maxIterations)
  {
    var r := 0;
    while r < colors.Length
      invariant 0 <= r <= colors.Length
      invariant forall i :: 0 <= i < r ==> colors[i] == SetColor32(value[i], maxIterations)
    {
      SetColorExecute(value, maxIterations, colors, r);
      r := r + 1;
    }
  }

  /** The points of row y, left to right. */
  function RowPoints(v: View, y: int, w: int, h: int): (r: seq<Complex>)
    requires w > 0 && h > 0
    ensures |r| == w
  {
    seq(w, x => PointAt(v, x as real, y as real, w, h))
  }

  /** The points of the first `rows` rows, in the order the fill loops
      produce them. */
  function RowMajorPoints(v: View, w: int, h: int, rows: nat): seq<Complex>
    requires w > 0 && h > 0
  {
    if rows == 0 then [] else RowMajorPoints(v, w, h, rows - 1) + RowPoints(v, rows - 1, w, h)
  }

  /** Entry i of the fill order is the point of pixel number i. */
  lemma {:induction false} RowMajorPointsAt(v: View, w: int, h: int, rows: nat)
    requires w > 0 && h > 0 && rows <= h
    ensures |RowMajorPoints(v, w, h, rows)| == w * rows
    ensures forall i :: 0 <= i < w * rows ==> RowMajorPoints(v, w, h, rows)[i] == PixelPoint(v, i, w, h)
  {
    if rows > 0 {
      RowMajorPointsAt(v, w, h, rows - 1);
      assert w * rows == w * (rows - 1) + w;
      forall i | w * (rows - 1) <= i < w * rows
        ensures RowMajorPoints(v, w, h, rows)[i] == PixelPoint(v, i, w, h)
      {
        var x := i - w * (rows - 1);
        assert i == Flatten(x, rows - 1, w);
        PixelPointAt(v, x, rows - 1, w, h);
      }
    }
  }

  /** The first loop nest of `RunMandelbrot`: rows outside, columns inside,
      each pixel's coordinates stored at its flat index. The ghost result
      `order` lists the indices in the order they are written. */
  method FillCoordinates(v: View, w: int, h: int, xList: array<real>, yList: array<real>)
    returns (ghost order: seq<int>)
    requires w > 0 && h > 0
    requires xList.Length == w * h && yList.Length == w * h && xList != yList
    modifies xList, yList
    ensures order == RowMajorVisits(w, h)
    ensures forall i :: 0 <= i < w * h ==> Complex(xList[i], yList[i]) == PixelPoint(v, i, w, h)
    ensures forall x, y :: 0 <= x < w && 0 <= y < h ==>
      0 <= Flatten(x, y, w) < w * h &&
      Complex(xList[Flatten(x, y, w)], yList[Flatten(x, y, w)]) == PointAt(v, x as real, y as real, w, h)
  {
    order := [];
    ghost var points: seq<Complex> := [];
    var y := 0;
    while y != h
      invariant 0 <= y <= h && 0 <= Flatten(0, y, w) <= w * h
      invariant order == RowMajorVisits(w, y)
      invariant points == RowMajorPoints(v, w, h, y) && |points| == Flatten(0, y, w)
      invariant forall i :: 0 <= i < |points| ==> Complex(xList[i], yList[i]) == points[i]
    {
      var x := 0;
      while x != w
        invariant 0 <= x <= w && 0 <= Flatten(x, y, w) <= w * h
        invariant order == RowMajorVisits(w, y) + seq(x, xx => Flatten(xx, y, w))
        invariant points == RowMajorPoints(v, w, h, y) + RowPoints(v, y, w, h)[..x]
        invariant |points| == Flatten(x, y, w)
        invariant forall i :: 0 <= i < |points| ==> Complex(xList[i], yList[i]) == points[i]
      {
        RowMajorProgress(x + 1, y, w, h);
        // rStart + width * x / w and iStart + height * y / h
        var p := PointAt(v, x as real, y as real, w, h);
        xList[x + y * w] := p.re;
        yList[x + y * w] := p.im;
        order := order + [Flatten(x, y, w)];
        assert seq(x + 1, xx => Flatten(xx, y, w)) == seq(x, xx => Flatten(xx, y, w)) + [Flatten(x, y, w)];
        points := points + [PointAt(v, x as real, y as real, w, h)];
        assert RowPoints(v, y, w, h)[..x + 1] == RowPoints(v, y, w, h)[..x] + [PointAt(v, x as real, y as real, w, h)];
        x := x + 1;
      }
      assert RowPoints(v, y, w, h)[..w] == RowPoints(v, y, w, h);
      RowMajorProgress(w, y, w, h);
      y := y + 1;
    }
    RowMajorPointsAt(v, w, h, h);
    PixelCoordinates(v, w, h, xList[..], yList[..]);
  }

  /** Coordinates stored per flat index are the coordinates of each pixel
      (x, y): the point at column x, row y. */
  lemma PixelCoordinates(v: View, w: int, h: int, xs: seq<real>, ys: seq<real>)
    requires w > 0 && h > 0 && |xs| == w * h && |ys| == w * h
    requires forall i :: 0 <= i < w * h ==> Complex(xs[i], ys[i]) == PixelPoint(v, i, w, h)
    ensures forall x, y :: 0 <= x < w && 0 <= y < h ==>
      0 <= Flatten(x, y, w) < w * h &&
      Complex(xs[Flatten(x, y, w)], ys[Flatten(x, y, w)]) == PointAt(v, x as real, y as real, w, h)
  {
    forall x, y | 0 <= x < w && 0 <= y < h
      ensures 0 <= Flatten(x, y, w) < w * h
      ensures Complex(xs[Flatten(x, y, w)], ys[Flatten(x, y, w)]) == PointAt(v, x as real, y as real, w, h)
    {
      PixelPointAt(v, x, y, w, h);
    }
  }

  /** The second loop nest of `RunMandelbrot`: the job's colour buffer is
      copied into the component's `colors`, row by row. */
  method CopyColors(colors: array<Color32>, color: array<Color32>, w: int, h: int)
    requires w > 0 && h > 0 && colors != color
    requires colors.Length == w * h && color.Length == w * h
    modifies colors
    ensures colors[..] == color[..] && color[..] == old(color[..])
  {
    ghost var done := 0;  // slots copied so far: Flatten(x, y, w)
    var y := 0;
    while y != h
      invariant 0 <= y <= h && done == Flatten(0, y, w) && 0 <= done <= w * h
      invariant forall i :: 0 <= i < done ==> colors[i] == color[i]
      invariant color[..] == old(color[..])
    {
      var x := 0;
      while x != w
        invariant 0 <= x <= w && done == Flatten(x, y, w) && 0 <= done <= w * h
        invariant forall i :: 0 <= i < done ==> colors[i] == color[i]
        invariant color[..] == old(color[..])
      {
        RowMajorProgress(x + 1, y, w, h);
        colors[x + y * w] := color[x + y * w];
        x := x + 1;
        done := done + 1;
      }
      RowMajorProgress(w, y, w, h);
      y := y + 1;
    }
  }

  /** The `MandelbrotJobs` component. `displayWidth` and `displayHeight` are
      the size of the texture made in `Start`; `colors` is the buffer handed
      to it. */
  class MandelbrotJobs {
    var height: real
    var width: real
    var rStart: real
    var iStart: real
    var maxIterations: Int32
    var zoom: int
    const displayWidth: int
    const displayHeight: int
    const colors: array<Color32>

    ghost predicate Valid()
      reads this
    {
      && displayWidth > 0 && displayHeight > 0
      && colors.Length == displayWidth * displayHeight
      && zoom == ZOOM_DIVISOR
    }

    function View(): View
      reads this
    {
      Viewport.View(rStart, iStart, width, height)
    }

    /** `Start`: the start-up view and cap, a buffer for the whole screen, and
        the first frame rendered into it. */
    constructor (screenWidth: int, screenHeight: int)
      requires screenWidth > 0 && screenHeight > 0
      ensures Valid() && fresh(colors)
      ensures displayWidth == screenWidth && displayHeight == screenHeight
      ensures View() == StartView(screenWidth, screenHeight)
      ensures maxIterations == START_MAX_ITERATIONS
      ensures colors[..] == Frame(View(), maxIterations, displayWidth, displayHeight)
    {
      width := START_WIDTH;
      height := START_WIDTH * screenHeight as real / screenWidth as real;
      rStart := START_R;
      iStart := START_I;
      zoom := ZOOM_DIVISOR;
      maxIterations := START_MAX_ITERATIONS;
      displayWidth := screenWidth;
      displayHeight := screenHeight;
      colors := new Color32[screenWidth * screenHeight];
      new;
      RunMandelbrot();
    }

    /** One frame of input: a click pans and re-renders; then a scroll zooms,
        moves the cap by 3 and re-renders. Without input nothing changes. */
    method Update(mouseDown: bool, mouseX: real, mouseY: real, scrollY: real,
                  screenWidth: int, screenHeight: int)
      requires Valid() && screenWidth > 0 && screenHeight > 0
      modifies this, colors
      ensures Valid()
      ensures var panned := if mouseDown then Pan(old(View()), mouseX, mouseY, screenWidth, screenHeight)
                            else old(View());
        View() == if scrollY != 0.0 then Zoom(panned, scrollY, zoom) else panned
      ensures maxIterations == if scrollY != 0.0 then ZoomIterations(old(maxIterations), scrollY)
                               else old(maxIterations)
      ensures mouseDown || scrollY != 0.0 ==>
        colors[..] == Frame(View(), maxIterations, displayWidth, displayHeight)
      ensures !mouseDown && scrollY == 0.0 ==> colors[..] == old(colors[..])
    {
      if mouseDown {
        PanView(mouseX, mouseY, screenWidth, screenHeight);
        RunMandelbrot();
      }

      if scrollY != 0.0 {
        ZoomView(scrollY);
        RunMandelbrot();
      }
    }

    /** The click block of `Update`: the corner moves so that the clicked
        point becomes the centre. */
    method PanView(mouseX: real, mouseY: real, screenWidth: int, screenHeight: int)
      requires screenWidth > 0 && screenHeight > 0
      modifies this
      ensures View() == Pan(old(View()), mouseX, mouseY, screenWidth, screenHeight)
      ensures maxIterations == old(maxIterations) && zoom == old(zoom)
    {
      var sw, sh := screenWidth as real, screenHeight as real;
      rStart := rStart + (mouseX - (sw / 2.0)) / sw * width;
      iStart := iStart + (mouseY - (sh / 2.0)) / sh * height;
    }

    /** The scroll block of `Update`: both extents shrink by a tenth of the
        scroll step around the centre, and the cap moves by 3. */
    method ZoomView(scrollY: real)
      requires zoom != 0
      modifies this
      ensures zoom == old(zoom)
      ensures View() == Zoom(old(View()), scrollY, zoom)
      ensures maxIterations == ZoomIterations(old(maxIterations), scrollY)
    {
      var wFactor := width * scrollY / zoom as real;
      var hFactor := height * scrollY / zoom as real;
      width := width - wFactor;
      height := height - hFactor;
      rStart := rStart + wFactor / 2.0;
      iStart := iStart + hFactor / 2.0;

      if scrollY > 0.0 {
        maxIterations := Wrap32(maxIterations as int + 3);
      } else {
        maxIterations := Wrap32(maxIterations as int - 3);
      }
    }

    /** `RunMandelbrot`: fill the coordinate buffers, run the escape job and
        the colour job, and copy the result into `colors`, which then holds
        the frame of the current view and cap. */
    method RunMandelbrot()
      requires Valid()
      modifies colors
      ensures colors[..] == Frame(View(), maxIterations, displayWidth, displayHeight)
    {
      var w, h := displayWidth, displayHeight;
      var result := new Int32[w * h];
      var color := new Color32[w * h];
      var xList := new real[w * h];
      var yList := new real[w * h];

      ghost var order := FillCoordinates(View(), w, h, xList, yList);
      RunMandelbrotJob(xList, yList, maxIterations, result);
      RunSetColorJob(result, maxIterations, color);
      CopyColors(colors, color, w, h);

      ghost var frame := Frame(View(), maxIterations, w, h);
      forall i | 0 <= i < w * h
        ensures colors[i] == frame[i]
      {
        assert Complex(xList[i], yList[i]) == PixelPoint(View(), i, w, h);
      }
    }
  }
}
