/** How the two render loops walk the pixel grid. The job variant fills and
    copies flat buffers at index x + y * w with y in the outer loop; the scalar
    variant calls `SetPixel(x, y)` with x in the outer loop. */
module Grid {

  /** The flat index of pixel (x, y) in a buffer of rows w pixels wide. */
  function Flatten(x: int, y: int, w: int): int {
    x + y * w
  }

  lemma ProductBound(a: int, b: int, n: int)
    requires 0 <= a < b && n > 0
    ensures a * n + n <= b * n
  {
    var d := b - a - 1;
    assert b * n == a * n + d * n + n;
    assert d * n >= 0;
  }

  /** Pixel (x, y) of a w x h grid has a flat index in [0, w * h) from which
      x and y are recovered as the remainder and quotient by w. */
  lemma FlattenInverse(x: int, y: int, w: int, h: int)
    requires 0 <= x < w && 0 <= y < h
    ensures 0 <= Flatten(x, y, w) < w * h
    ensures Flatten(x, y, w) % w == x && Flatten(x, y, w) / w == y
  {
    var i := x + y * w;
    ProductBound(y, h, w);
    assert y * w == w * y && h * w == w * h;
    var q, r := i / w, i % w;
    assert q * w + r == i;
    if q < y {
      ProductBound(q, y, w);
    } else if y < q {
      ProductBound(y, q, w);
    }
  }

  /** While the row-major loops are at column x of row y, the indices already
      written, [0, x + y * w), all lie inside the buffer. */
  lemma RowMajorProgress(x: int, y: int, w: int, h: int)
    requires 0 <= x <= w && 0 <= y < h && w > 0
    ensures 0 <= Flatten(x, y, w) <= w * h
    ensures Flatten(w, y, w) == Flatten(0, y + 1, w)
  {
    ProductBound(y, h, w);
    assert y * w == w * y && h * w == w * h;
  }

  /** Every flat index in [0, w * h) is the index of exactly the pixel
      (i % w, i / w) of the grid. */
  lemma UnflattenInverse(i: int, w: int, h: int)
    requires w > 0 && 0 <= i < w * h
    ensures 0 <= i % w < w && 0 <= i / w < h
    ensures Flatten(i % w, i / w, w) == i
  {
    var q := i / w;
    assert q * w + i % w == i;
    assert w * h == h * w;
    if q >= h {
      ProductBound(h - 1, q + 1, w);
    }
  }

  /** Two pixels of the grid never share a flat index. */
  lemma FlattenInjective(x1: int, y1: int, x2: int, y2: int, w: int, h: int)
    requires 0 <= x1 < w && 0 <= y1 < h && 0 <= x2 < w && 0 <= y2 < h
    requires Flatten(x1, y1, w) == Flatten(x2, y2, w)
    ensures x1 == x2 && y1 == y2
  {
    FlattenInverse(x1, y1, w, h);
    FlattenInverse(x2, y2, w, h);
  }

  /** The flat indices in the order the job variant's nested loops
      (`for y`, then `for x`) produce them. */
  function RowMajorVisits(w: nat, h: nat): seq<int> {
    if h == 0 then [] else RowMajorVisits(w, h - 1) + seq(w, x => Flatten(x, h - 1, w))
  }

  /** The k-th write of the job loops goes to index k: the loops write every
      index of [0, w * h) once, in increasing order. */
  lemma {:induction false} RowMajorVisitsInOrder(w: nat, h: nat)
    ensures |RowMajorVisits(w, h)| == w * h
    ensures forall k :: 0 <= k < w * h ==> RowMajorVisits(w, h)[k] == k
  {
    if h > 0 {
      RowMajorVisitsInOrder(w, h - 1);
      assert w * h == w * (h - 1) + w;
    }
  }

  /** The pixels in the order the scalar variant's nested loops (`for x`, then
      `for y`) visit them. */
  function ColumnMajorVisits(w: nat, h: nat): seq<(int, int)> {
    if w == 0 then [] else ColumnMajorVisits(w - 1, h) + seq(h, y => (w - 1, y))
  }

  /** The k-th visit of the scalar loops is pixel (k / h, k % h). */
  lemma {:induction false} ColumnMajorVisitAt(w: nat, h: nat)
    ensures |ColumnMajorVisits(w, h)| == w * h
    ensures forall k :: 0 <= k < w * h ==> ColumnMajorVisits(w, h)[k] == (k / h, k % h)
  {
    if w > 0 {
      ColumnMajorVisitAt(w - 1, h);
      assert w * h == (w - 1) * h + h;
      forall k | (w - 1) * h <= k < w * h
        ensures ColumnMajorVisits(w, h)[k] == (k / h, k % h)
      {
        var y := k - (w - 1) * h;
        FlattenInverse(y, w - 1, h, w);
      }
    }
  }

  /** The scalar loops visit every pixel of the grid exactly once: each
      visit is a pixel of the grid, no two visits coincide, and each pixel
      (x, y) is visit number x * h + y. */
  lemma ColumnMajorVisitsEachPixelOnce(w: nat, h: nat)
    ensures var v := ColumnMajorVisits(w, h);
      && |v| == w * h
      && (forall k :: 0 <= k < |v| ==> 0 <= v[k].0 < w && 0 <= v[k].1 < h)
      && (forall k1, k2 :: 0 <= k1 < k2 < |v| ==> v[k1] != v[k2])
      && (forall x, y :: 0 <= x < w && 0 <= y < h ==> v[Flatten(y, x, h)] == (x, y))
  {
    ColumnVisitsInGrid(w, h);
    ColumnVisitsNoRepeat(w, h);
    ColumnVisitsCover(w, h);
  }

  lemma ColumnVisitsInGrid(w: nat, h: nat)
    ensures var v := ColumnMajorVisits(w, h);
      forall k :: 0 <= k < |v| ==> 0 <= v[k].0 < w && 0 <= v[k].1 < h
  {
    var v := ColumnMajorVisits(w, h);
    ColumnMajorVisitAt(w, h);
    forall k | 0 <= k < |v|
      ensures 0 <= v[k].0 < w && 0 <= v[k].1 < h
    {
      ColumnVisitInGrid(k, w, h);
    }
  }

  lemma ColumnVisitsNoRepeat(w: nat, h: nat)
    ensures var v := ColumnMajorVisits(w, h);
      forall k1, k2 :: 0 <= k1 < k2 < |v| ==> v[k1] != v[k2]
  {
    var v := ColumnMajorVisits(w, h);
    ColumnMajorVisitAt(w, h);
    forall k1, k2 | 0 <= k1 < k2 < |v|
      ensures v[k1] != v[k2]
    {
      ColumnVisitsDistinct(k1, k2, w, h);
    }
  }

  lemma ColumnVisitsCover(w: nat, h: nat)
    ensures var v := ColumnMajorVisits(w, h);
      && |v| == w * h
      && forall x, y :: 0 <= x < w && 0 <= y < h ==> v[Flatten(y, x, h)] == (x, y)
  {
    var v := ColumnMajorVisits(w, h);
    ColumnMajorLength(w, h);
    forall x, y | 0 <= x < w && 0 <= y < h
      ensures 0 <= Flatten(y, x, h) < |v| && v[Flatten(y, x, h)] == (x, y)
    {
      ColumnVisitOfPixel(x, y, w, h);
    }
  }

  lemma {:induction false} ColumnMajorLength(w: nat, h: nat)
    ensures |ColumnMajorVisits(w, h)| == w * h
  {
    ColumnMajorVisitAt(w, h);
  }

  lemma ColumnVisitInGrid(k: int, w: nat, h: nat)
    requires 0 <= k < w * h
    ensures 0 <= k / h < w && 0 <= k % h < h
  {
    assert w * h == h * w;
    UnflattenInverse(k, h, w);
  }

  lemma ColumnVisitsDistinct(k1: int, k2: int, w: nat, h: nat)
    requires 0 <= k1 < k2 < w * h
    ensures (k1 / h, k1 % h) != (k2 / h, k2 % h)
  {
    assert w * h == h * w;
    UnflattenInverse(k1, h, w);
    UnflattenInverse(k2, h, w);
  }

  lemma ColumnVisitOfPixel(x: int, y: int, w: nat, h: nat)
    requires 0 <= x < w && 0 <= y < h
    ensures 0 <= Flatten(y, x, h) < |ColumnMajorVisits(w, h)|
    ensures ColumnMajorVisits(w, h)[Flatten(y, x, h)] == (x, y)
  {
    var i := Flatten(y, x, h);
    FlattenInverse(y, x, h, w);
    assert h * w == w * h;
    ColumnMajorVisitAt(w, h);
    assert ColumnMajorVisits(w, h)[i] == (i / h, i % h);
  }
}
