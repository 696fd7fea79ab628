# Mandelbrot viewer (Unity, CPU) — a Dafny model

The program is a Unity viewer for the Mandelbrot set. It comes in two variants that render the same picture:

- **`Mandelbrot`** (scalar variant): walks the screen column by column. For every pixel it runs the escape-time loop on one point of the complex plane, picks a float colour for the count, and writes it into the texture.
- **`MandelbrotJobs`** (job variant): does the same work in three steps.
  1. It fills two coordinate buffers row by row.
  2. It runs two parallel jobs. The first computes an escape count per index. It skips the loop for points inside the main cardioid. The second turns each count into a byte colour.
  3. It copies the colour buffer into the array handed to the texture.

Both variants start on the rectangle [-2, 2.5] × [-1.25, -1.25 + height] of the plane. A click re-centres the view on the clicked point. A scroll zooms by a tenth of the extent per step, keeping the centre fixed. In the job variant, a scroll also raises or lowers the iteration cap by 3.

The Dafny model:

| file | module | contents |
|---|---|---|
| `numeric.dfy` | `Numeric` | C# `int` as `Int32`, with two's-complement wrap-around (`Wrap32`) and C#'s truncating `%` (`Rem16`). |
| `complex_plane.dfy` | `ComplexPlane` | Complex numbers over the reals. `Step` is z·z + c; `Escaped` is \|z\| > 2, written as \|z\|² > 4. |
| `escape_time.dfy` | `EscapeTime` | The escape count as a specification: the first update after which the orbit leaves radius 2, within the number of trips the loop makes. The cardioid test, and the job count that uses it. |
| `colors.dfy` | `Colors` | The two 16-entry palettes and the two colour functions. |
| `viewport.dfy` | `Viewport` | The view rectangle, the pixel-to-point map, pan, zoom and the cap change. |
| `grid.dfy` | `Grid` | Flat indices `x + y * w`, and the visiting orders of the two render loops. |
| `jobs.dfy` | `Jobs` | Both job bodies, the fill and copy loops, and the `MandelbrotJobs` component as a class. |
| `scalar.dfy` | `Scalar` | The `Mandelbrot` component as a class, with its loop over the texture and its escape loop. |

Modelling choices:

- **Doubles are reals.** `Complex.Abs(z) > 2` is stated as `re² + im² > 4`, which is the same comparison over the reals.
- **The escape-loop counters, the counts and `maxIterations` are `Int32` values.** Their `++`, `+= 3` and `-= 3` go through `Wrap32`. The `zoom` field and the counters `x` and `y` of the render, fill and copy loops are unbounded `int`s: `zoom` is always 10, and `x` and `y` stay below the screen size.
- **Negative caps are modelled, not excluded.** A loop `for (int i = 0; i != maxIterations; i++)` runs `Trips(maxIterations)` times. That is the cap itself when it is non-negative, and 2^32 + cap when it is negative (the counter has to wrap round to reach it). Negative caps do occur: the job variant lowers its cap by 3 per scroll out, from 100, so the cap is negative after 34 scrolls out (`StartCapGoesNegative`). The escape count is then computed as the source computes it.
- **The texture is an array.** In the job variant it is the `colors` array that `SetPixels32` receives, in row-major order. In the scalar variant it is the `pixels` array indexed `[x, y]`, as `SetPixel(x, y, …)` addresses it.
- **Screen size and input are parameters.** The screen size and the input of one frame (mouse button, mouse position, scroll delta) are passed to `Update`. The texture keeps the screen size it was created with, as `display` does in the source.

Where the code does something other than one might read from a description of the viewer, the model follows the code:

- **c = 2 gets count 1, not 0.** The first update gives z = 2, and the test is strict (`> 2`).
- **There is no period-2 bulb test.** Despite the "Cardiod-Bulb" comment, the job body tests only the main cardioid.
- **A negative cap does not draw an all-black frame.** The loop runs until the counter wraps round to the cap. Counts for negative caps are therefore `Wrap32` of the first escape within 2^32 + cap trips.
- **A click recentres exactly.** Over exact arithmetic, the centre of the new view is the clicked point (`Viewport.Pan`).

## Model

| member | source | states |
|---|---|---|
| `Numeric.Wrap32` | MandelbrotCPU/Assets/MandelbrotJobs.cs:54 | A C# `int` result is congruent to the true value modulo 2^32, and equals it when the value is in range. |
| `Numeric.Rem16` | MandelbrotCPU/Assets/MandelbrotJobs.cs:73 | C#'s `value % 16` has the sign of `value`, lies strictly between -16 and 16, and is congruent to `value` modulo 16. |
| `ComplexPlane.SquareFormula` | MandelbrotCPU/Assets/Mandelbrot.cs:86 | z·z is (re² − im²) + (2·re·im)i, and \|z·z\|² = (\|z\|²)². |
| `ComplexPlane.Step` | MandelbrotCPU/Assets/Mandelbrot.cs:86 | One loop update `z = z * z + c`, with `System.Numerics` complex multiplication and addition over the reals. The same update is at MandelbrotJobs.cs:46. |
| `ComplexPlane.Escaped` | MandelbrotCPU/Assets/Mandelbrot.cs:88 | The test `Complex.Abs(z) > 2`, as re² + im² > 4 (both sides are non-negative, so the comparisons agree over the reals). The same test is at MandelbrotJobs.cs:48. |
| `EscapeTime.InCardioid` | MandelbrotCPU/Assets/MandelbrotJobs.cs:37-38 | The job's shortcut test: with q = (x − 1/4)² + y², the point passes when q·(q + x − 1/4) < y²/4. |
| `EscapeTime.Trips` | MandelbrotCPU/Assets/Mandelbrot.cs:84 | The loop `i != maxIterations` runs exactly until the wrapped counter first equals the cap. That is `maxIterations` trips for a non-negative cap, and fewer than 2^32 trips in every case. |
| `EscapeTime.FirstEscapeIsFirst` | MandelbrotCPU/Assets/Mandelbrot.cs:84-96 | The search result is an update at which the orbit is outside radius 2 and no earlier update is, or the trip limit when no update in range escapes. |
| `EscapeTime.EscapeFromOrbit` | MandelbrotCPU/Assets/Mandelbrot.cs:84-96 | Continuing the loop from the orbit's k-th value gives the same first escape as starting from z = 0. This is the invariant both escape loops keep. |
| `EscapeTime.EscapeCount` | MandelbrotCPU/Assets/Mandelbrot.cs:78-99 | For a non-negative cap, `MandelbrotFunction` returns a count between 0 and the cap. |
| `EscapeTime.EscapeCountIsFirstEscape` | MandelbrotCPU/Assets/Mandelbrot.cs:78-99 | For a non-negative cap, the count n is the index of the first update that escapes, or the cap: no update before n escapes, and update n does when n < cap. |
| `EscapeTime.EscapeCountUnique` | MandelbrotCPU/Assets/Mandelbrot.cs:78-99 | Any n with that first-escape property is the count. |
| `EscapeTime.InteriorIffNoEscape` | MandelbrotCPU/Assets/Mandelbrot.cs:84-98 | The count equals the cap if and only if no update within the loop's trips leaves radius 2. |
| `EscapeTime.JobEscapeCount` | MandelbrotCPU/Assets/MandelbrotJobs.cs:31-57 | For a non-negative cap, the job result is between 0 and the cap. |
| `EscapeTime.JobDiffersOnlyByShortcut` | MandelbrotCPU/Assets/MandelbrotJobs.cs:37-42 | Off the cardioid, the job count equals the scalar count. Where they differ, the point passed the cardioid test. |
| `EscapeTime.OriginIsInterior` | MandelbrotCPU/Assets/MandelbrotJobs.cs:37-42 | c = 0 passes the cardioid test, and both variants give it the cap. |
| `EscapeTime.TwoEscapesAtSecondUpdate` | MandelbrotCPU/Assets/Mandelbrot.cs:86-95 | c = 2 gets count 1 in both variants, because the escape test is strict. |
| `EscapeTime.StartCornerEscapesAtOnce` | MandelbrotCPU/Assets/MandelbrotJobs.cs:37-50 | The start-up corner -2 - 1.25i fails the cardioid test and escapes at the first update (count 0). |
| `Colors.SetColor32` | MandelbrotCPU/Assets/MandelbrotJobs.cs:69-193 | The job colour is always opaque, and black when the count equals the cap. |
| `Colors.SetColorF` | MandelbrotCPU/Assets/Mandelbrot.cs:101-228 | The scalar colour has alpha 1, and is black when the count equals the cap. |
| `Colors.EscapedCountColor` | MandelbrotCPU/Assets/MandelbrotJobs.cs:71-191 | A non-negative count other than the cap gets palette entry `value % 16`, at full alpha. |
| `Colors.PaletteCycles` | MandelbrotCPU/Assets/MandelbrotJobs.cs:73-191 | In both variants, escaped counts 16 apart get the same colour. |
| `Colors.BlackIffInterior` | MandelbrotCPU/Assets/MandelbrotJobs.cs:69-193 | For counts in [0, cap], the pixel is black if and only if the count is the cap, in both variants. |
| `Colors.NegativeCountsMatchNoCase` | MandelbrotCPU/Assets/MandelbrotJobs.cs:73-75 | A negative count that is not a multiple of 16 matches no case of the switch and stays black. |
| `Colors.ScalarColorIsJobColorScaled` | MandelbrotCPU/Assets/Mandelbrot.cs:105-225 | The scalar colour of every count is the job colour with each channel divided by 255. |
| `Colors.TablesAgree` | MandelbrotCPU/Assets/Mandelbrot.cs:109-225 | Each entry of the scalar table is the job table's byte value divided by 255. |
| `Viewport.PointAt` | MandelbrotCPU/Assets/MandelbrotJobs.cs:258-259 | The point a pixel shows: `rStart + width * x / w` and `iStart + height * y / h`. The scalar render loop uses the same expressions at Mandelbrot.cs:64-65. |
| `Viewport.StartView` | MandelbrotCPU/Assets/MandelbrotJobs.cs:201-204 | The start-up view has its corner at -2 - 1.25i, width 4.5, and the screen's aspect ratio. |
| `Viewport.Pan` | MandelbrotCPU/Assets/MandelbrotJobs.cs:218-219 | A click keeps both extents, and moves the centre of the view to the point under the mouse. |
| `Viewport.PanAtScreenCentre` | MandelbrotCPU/Assets/MandelbrotJobs.cs:218-219 | A click in the middle of the screen leaves the view unchanged. |
| `Viewport.Zoom` | MandelbrotCPU/Assets/MandelbrotJobs.cs:225-230 | A scroll keeps the centre, and scales both extents by 1 − delta / zoom. |
| `Viewport.ZoomKeepsExtentPositive` | MandelbrotCPU/Assets/MandelbrotJobs.cs:225-228 | The extents stay positive if and only if the scroll delta is below the zoom divisor. |
| `Viewport.ZoomInNests` | MandelbrotCPU/Assets/MandelbrotJobs.cs:225-230 | Scrolling in by less than the divisor shows a rectangle strictly inside the old one. |
| `Viewport.ZoomIterations` | MandelbrotCPU/Assets/MandelbrotJobs.cs:232-239 | While no wrap occurs, the job cap goes up by 3 on a positive scroll and down by 3 otherwise. |
| `Viewport.ZoomOutsSubtract` | MandelbrotCPU/Assets/MandelbrotJobs.cs:232-239 | n scrolls out lower the cap by 3n while no wrap occurs. |
| `Viewport.StartCapGoesNegative` | MandelbrotCPU/Assets/MandelbrotJobs.cs:232-239 | From the start-up cap of 100, 33 scrolls out leave 1 and 34 leave -2. |
| `Viewport.PointAtMonotone` | MandelbrotCPU/Assets/MandelbrotJobs.cs:258-259 | Pixels further right or further up show points with a larger real or imaginary part. |
| `Grid.Flatten` | MandelbrotCPU/Assets/MandelbrotJobs.cs:288 | The buffer slot `x + y * display.width` of pixel (x, y). The fill loop writes the same slot at MandelbrotJobs.cs:258-259. |
| `Grid.FlattenInverse` | MandelbrotCPU/Assets/MandelbrotJobs.cs:254-261 | Index `x + y * w` of a pixel lies in [0, w·h), and gives back x and y by `%` and `/`. |
| `Grid.UnflattenInverse` | MandelbrotCPU/Assets/MandelbrotJobs.cs:254-261 | Every index of the buffer is the flat index of pixel (i % w, i / w). |
| `Grid.FlattenInjective` | MandelbrotCPU/Assets/MandelbrotJobs.cs:284-290 | Two pixels never share a buffer slot. |
| `Grid.RowMajorVisitsInOrder` | MandelbrotCPU/Assets/MandelbrotJobs.cs:254-261 | The fill loops write indices 0, 1, …, w·h − 1, in that order. |
| `Grid.ColumnMajorVisitAt` | MandelbrotCPU/Assets/Mandelbrot.cs:60-67 | The k-th pixel the scalar loops visit is (k / h, k % h). |
| `Grid.ColumnMajorVisitsEachPixelOnce` | MandelbrotCPU/Assets/Mandelbrot.cs:60-67 | The scalar loops visit every pixel of the texture exactly once. |
| `Jobs.PixelPointAt` | MandelbrotCPU/Assets/MandelbrotJobs.cs:258-259 | Buffer slot `x + y * w` shows the point at column x, row y. |
| `Jobs.FrameAt` | MandelbrotCPU/Assets/MandelbrotJobs.cs:254-290 | Pixel (x, y) of the frame is the job colour of the point at column x, row y. |
| `Jobs.RowMajorPointsAt` | MandelbrotCPU/Assets/MandelbrotJobs.cs:254-261 | The points produced row by row are, slot by slot, the points the flat indices stand for. |
| `Jobs.MandelbrotExecute` | MandelbrotCPU/Assets/MandelbrotJobs.cs:31-57 | `Execute(r)` sets slot r to the job count of (x[r], y[r]) and changes no other slot. This is proved through the loop's escape invariant. |
| `Jobs.RunMandelbrotJob` | MandelbrotCPU/Assets/MandelbrotJobs.cs:263-272 | After the escape job, every slot holds the job count of its coordinates. |
| `Jobs.SetColorExecute` | MandelbrotCPU/Assets/MandelbrotJobs.cs:67-194 | `Execute(r)` sets colour slot r to the colour of count r, and changes no other slot. |
| `Jobs.RunSetColorJob` | MandelbrotCPU/Assets/MandelbrotJobs.cs:274-282 | After the colour job, every slot holds the colour of its count. |
| `Jobs.FillCoordinates` | MandelbrotCPU/Assets/MandelbrotJobs.cs:254-261 | The fill loops visit indices in row-major order, and leave at slot `x + y * w` the coordinates of the point at column x, row y. |
| `Jobs.PixelCoordinates` | MandelbrotCPU/Assets/MandelbrotJobs.cs:254-261 | Coordinates filled slot by slot per flat index are the coordinates of the point at each pixel. |
| `Jobs.CopyColors` | MandelbrotCPU/Assets/MandelbrotJobs.cs:284-290 | The copy loops leave `colors` equal to the job's colour buffer, slot for slot, and do not change the source buffer. |
| `Jobs.MandelbrotJobs.constructor` | MandelbrotCPU/Assets/MandelbrotJobs.cs:199-211 | `Start` sets the start-up view and a cap of 100, and draws the first frame into a screen-sized buffer. |
| `Jobs.MandelbrotJobs.Update` | MandelbrotCPU/Assets/MandelbrotJobs.cs:214-243 | After a click, the view is panned. After a scroll, it is zoomed and the cap moved by 3. After any input, the buffer holds the frame of the new view and cap. Without input, nothing changes. |
| `Jobs.MandelbrotJobs.PanView` | MandelbrotCPU/Assets/MandelbrotJobs.cs:218-219 | The click block leaves the view equal to `Pan` of the old view: same extents, centred on the clicked point. The cap does not change. |
| `Jobs.MandelbrotJobs.ZoomView` | MandelbrotCPU/Assets/MandelbrotJobs.cs:225-239 | The scroll block leaves the view equal to `Zoom` of the old view: same centre, both extents scaled by 1 − delta / `zoom`. `zoom` itself is unchanged; it is 10 from the start, and no code path changes it. The cap moves as `ZoomIterations` says. |
| `Jobs.MandelbrotJobs.RunMandelbrot` | MandelbrotCPU/Assets/MandelbrotJobs.cs:245-305 | The buffer handed to the texture becomes the frame: each pixel is the job colour of the point it shows. |
| `Scalar.SameColorOffCardioid` | MandelbrotCPU/Assets/Mandelbrot.cs:64-65 | A pixel where the scalar picture differs from the job picture shows a point that passes the cardioid test. |
| `Scalar.Mandelbrot.constructor` | MandelbrotCPU/Assets/Mandelbrot.cs:20-31 | `Start` sets the start-up view and a cap of 100, and draws every pixel of a screen-sized texture. |
| `Scalar.Mandelbrot.Update` | MandelbrotCPU/Assets/Mandelbrot.cs:34-54 | A click pans and a scroll zooms; the cap never changes. After any input, every pixel is redrawn for the new view. Without input, the texture is unchanged. |
| `Scalar.Mandelbrot.PanView` | MandelbrotCPU/Assets/Mandelbrot.cs:38-39 | The click block leaves the view equal to `Pan` of the old view, centred on the clicked point. |
| `Scalar.Mandelbrot.ZoomView` | MandelbrotCPU/Assets/Mandelbrot.cs:45-50 | The scroll block leaves the view equal to `Zoom` of the old view, and keeps the cap. |
| `Scalar.Mandelbrot.RunMandelbrot` | MandelbrotCPU/Assets/Mandelbrot.cs:56-76 | The loops visit pixels column by column, and set each pixel to the colour of the scalar count of the point it shows. |
| `Scalar.Mandelbrot.MandelbrotFunction` | MandelbrotCPU/Assets/Mandelbrot.cs:78-99 | The returned value is the escape count of x + yi under the current cap. Both return paths agree. |

## Left out

- **Engine calls.** `Texture2D.Apply`, `Sprite.Create`, the `Image` sprite and the `timePerFrame` text only display the result. The model ends at the pixel buffer (job variant) or the texture's pixels (scalar variant).
- **Timing.** `Time.realtimeSinceStartup` only feeds the frame-time text.
- **Parallelism.** The two jobs are scheduled with batch size 16 and waited on with `Complete()`. The model runs `Execute(r)` for r = 0, 1, … one after the other. Each call writes only slot r of its output and reads only slot r of its inputs, so the order does not change the result.
- **Buffer lifetime.** The four `NativeArray` buffers are allocated and disposed in every frame. The model receives them as arrays and does not model the allocation or `Dispose`.
- **Floating point.** Doubles are modelled as exact reals and floats as exact real fractions. Rounding near the escape radius or the cardioid boundary, and the float division by 255, are not modelled.
- **32-bit index arithmetic.** The products `display.width * display.height` and `x + y * display.width`, the `zoom` field, and the `x++` and `y++` of the render, fill and copy loops are unbounded integers in the model. Screen-sized textures stay far below 2^31 pixels, so none of these wraps.
- **Bounded orbits.** That points passing the cardioid test really never escape is not proved. The model only states where the two variants' counts can differ (`EscapeTime.JobDiffersOnlyByShortcut`).
- **Screen size per frame.** `Screen.width` and `Screen.height` are parameters of `Update`. Only the pan uses them, as in the source. A resize of the window between frames is not modelled any further.
- `Jobs.FillCoordinates`: writes `PointAt(v, x, y, w, h).re` and `.im`. These are the source's `rStart + width * x / w` and `iStart + height * y / h` by definition of `PointAt`, not the expressions spelled out separately.
- **Colour table shape.** `Colors.SetColor32` and `Colors.SetColorF` look up the 16 cases of each `switch` in a table indexed by the C# remainder. A remainder outside 0..15 matches no entry, as with the switch.
