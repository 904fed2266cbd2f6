// Grayscale to dots (core/src/escpos_encoder.cpp, resampleGray and packGrayscale): an
// integer box filter, then a threshold or Floyd-Steinberg error diffusion done in place.

module Rasters {
  import opened PrinterTypes

  // --- The image ------------------------------------------------------------------

  // Rows of gray values, 0 black.
  type Image = seq<seq<byte>>

  predicate IsImage(img: Image, w: nat) { forall j :: 0 <= j < |img| ==> |img[j]| == w }

  // --- Resampling -----------------------------------------------------------------

  // The source span behind one target index: never empty, never outside.
  function SpanStart(k: nat, src: nat, dst: nat): nat
    requires dst > 0
  {
    k * src / dst
  }

  function SpanEnd(k: nat, src: nat, dst: nat): nat
    requires dst > 0
  {
    var end := (k + 1) * src / dst;
    var one := if end <= SpanStart(k, src, dst) then SpanStart(k, src, dst) + 1 else end;
    if one > src then src else one
  }

  lemma SpanIsInside(k: nat, src: nat, dst: nat)
    requires k < dst && src > 0
    ensures SpanStart(k, src, dst) < SpanEnd(k, src, dst) <= src
  {
    Scale(src, k + 1, dst);
    assert k * src < dst * src by { assert src * (k + 1) == k * src + src; }
    DivBelow(k * src, dst, src);
  }

  lemma DivBelow(n: nat, d: nat, m: nat)
    requires d > 0 && n < d * m
    ensures n / d < m
  {
    if n / d >= m { Scale(d, m, n / d); }
  }

  lemma Scale(d: nat, a: int, b: int)
    requires a <= b
    ensures d * a <= d * b
  {
    assert d * (b - a) >= 0;
  }

  // Sum of a row's cells from x0 to x1, and of the rows from y0 to y1.
  function RowSum(row: seq<byte>, x0: nat, x1: nat): nat
    requires x0 <= x1 <= |row|
  {
    if x0 == x1 then 0 else RowSum(row, x0, x1 - 1) + row[x1 - 1]
  }

  function BoxSum(img: Image, w: nat, x0: nat, x1: nat, y0: nat, y1: nat): nat
    requires IsImage(img, w) && x0 <= x1 <= w && y0 <= y1 <= |img|
  {
    if y0 == y1 then 0 else BoxSum(img, w, x0, x1, y0, y1 - 1) + RowSum(img[y1 - 1], x0, x1)
  }

  // Every cell of the image lies between lo and hi.
  predicate Between(img: Image, lo: byte, hi: byte) {
    forall j, i :: 0 <= j < |img| && 0 <= i < |img[j]| ==> lo <= img[j][i] <= hi
  }

  lemma {:induction false} RowSumBounds(row: seq<byte>, x0: nat, x1: nat, lo: byte, hi: byte)
    requires x0 <= x1 <= |row| && forall i :: 0 <= i < |row| ==> lo <= row[i] <= hi
    ensures lo * (x1 - x0) <= RowSum(row, x0, x1) <= hi * (x1 - x0)
  {
    if x0 < x1 {
      RowSumBounds(row, x0, x1 - 1, lo, hi);
      OneMore(lo, x1 - 1 - x0);
      OneMore(hi, x1 - 1 - x0);
    }
  }

  lemma {:induction false} BoxSumBounds(img: Image, w: nat, x0: nat, x1: nat, y0: nat, y1: nat, lo: byte, hi: byte)
    requires IsImage(img, w) && x0 <= x1 <= w && y0 <= y1 <= |img| && Between(img, lo, hi)
    ensures lo * ((y1 - y0) * (x1 - x0)) <= BoxSum(img, w, x0, x1, y0, y1) <= hi * ((y1 - y0) * (x1 - x0))
  {
    if y0 < y1 {
      BoxSumBounds(img, w, x0, x1, y0, y1 - 1, lo, hi);
      RowSumBounds(img[y1 - 1], x0, x1, lo, hi);
      OneRowMore(lo, y1 - 1 - y0, x1 - x0);
      OneRowMore(hi, y1 - 1 - y0, x1 - x0);
    }
  }

  lemma OneMore(c: nat, n: nat)
    ensures c * (n + 1) == c * n + c
  {
  }

  lemma OneRowMore(c: nat, n: nat, d: nat)
    ensures c * ((n + 1) * d) == c * (n * d) + c * d
  {
    assert (n + 1) * d == n * d + d;
  }

  lemma AverageBounds(sum: nat, count: nat, lo: byte, hi: byte)
    requires count > 0 && lo * count <= sum <= hi * count
    ensures lo <= sum / count <= hi
  {
    var q := sum / count;
    assert count * q <= sum < count * q + count;
    if q < lo { Scale(count, q + 1, lo); }
    if q > hi { Scale(count, hi + 1, q); }
  }

  // A target pixel: the average over its box.
  function Pixel(img: Image, w: nat, dw: nat, dh: nat, x: nat, y: nat): byte
    requires IsImage(img, w) && w > 0 && |img| > 0 && x < dw && y < dh
  {
    SpanIsInside(x, w, dw);
    SpanIsInside(y, |img|, dh);
    var x0, x1 := SpanStart(x, w, dw), SpanEnd(x, w, dw);
    var y0, y1 := SpanStart(y, |img|, dh), SpanEnd(y, |img|, dh);
    AverageIsByte(img, w, x0, x1, y0, y1);
    BoxSum(img, w, x0, x1, y0, y1) / ((y1 - y0) * (x1 - x0))
  }

  lemma AverageIsByte(img: Image, w: nat, x0: nat, x1: nat, y0: nat, y1: nat)
    requires IsImage(img, w) && x0 < x1 <= w && y0 < y1 <= |img|
    ensures (y1 - y0) * (x1 - x0) > 0
    ensures 0 <= BoxSum(img, w, x0, x1, y0, y1) / ((y1 - y0) * (x1 - x0)) < 256
  {
    Positive(y1 - y0, x1 - x0);
    BoxSumBounds(img, w, x0, x1, y0, y1, 0, 255);
    AverageBounds(BoxSum(img, w, x0, x1, y0, y1), (y1 - y0) * (x1 - x0), 0, 255);
  }

  lemma Positive(a: nat, b: nat)
    requires a > 0 && b > 0
    ensures a * b > 0
  {
  }

  // Resampling stays within the range of the source: a constant image stays constant.
  lemma ResamplingKeepsRange(img: Image, w: nat, dw: nat, dh: nat, x: nat, y: nat, lo: byte, hi: byte)
    requires IsImage(img, w) && w > 0 && |img| > 0 && x < dw && y < dh && Between(img, lo, hi)
    ensures lo <= Pixel(img, w, dw, dh, x, y) <= hi
  {
    SpanIsInside(x, w, dw);
    SpanIsInside(y, |img|, dh);
    var x0, x1 := SpanStart(x, w, dw), SpanEnd(x, w, dw);
    var y0, y1 := SpanStart(y, |img|, dh), SpanEnd(y, |img|, dh);
    Positive(y1 - y0, x1 - x0);
    BoxSumBounds(img, w, x0, x1, y0, y1, lo, hi);
    AverageBounds(BoxSum(img, w, x0, x1, y0, y1), (y1 - y0) * (x1 - x0), lo, hi);
  }

  method SumBox(img: Image, w: nat, x0: nat, x1: nat, y0: nat, y1: nat) returns (sum: nat, count: nat)
    requires IsImage(img, w) && x0 < x1 <= w && y0 < y1 <= |img|
    ensures sum == BoxSum(img, w, x0, x1, y0, y1) && count == (y1 - y0) * (x1 - x0)
  {
    sum, count := 0, 0;
    for sy := y0 to y1
      invariant sum == BoxSum(img, w, x0, x1, y0, sy) && count == (sy - y0) * (x1 - x0)
    {
      for sx := x0 to x1
        invariant sum == BoxSum(img, w, x0, x1, y0, sy) + RowSum(img[sy], x0, sx)
        invariant count == (sy - y0) * (x1 - x0) + (sx - x0)
      {
        sum, count := sum + img[sy][sx], count + 1;
      }
      assert (sy + 1 - y0) * (x1 - x0) == (sy - y0) * (x1 - x0) + (x1 - x0);
    }
  }

  method ResampleGray(img: Image, w: nat, dw: nat, dh: nat) returns (out: Image)
    requires IsImage(img, w) && w > 0 && |img| > 0
    ensures |out| == dh && IsImage(out, dw)
    ensures forall y, x :: 0 <= y < dh && 0 <= x < dw ==> out[y][x] == Pixel(img, w, dw, dh, x, y)
  {
    out := [];
    for y := 0 to dh
      invariant |out| == y && IsImage(out, dw)
      invariant forall j, x :: 0 <= j < y && 0 <= x < dw ==> out[j][x] == Pixel(img, w, dw, dh, x, j)
    {
      var row := [];
      for x := 0 to dw
        invariant |row| == x
        invariant forall i :: 0 <= i < x ==> row[i] == Pixel(img, w, dw, dh, i, y)
      {
        var b := OnePixel(img, w, dw, dh, x, y);
        row := row + [b];
      }
      out := out + [row];
    }
  }

  method OnePixel(img: Image, w: nat, dw: nat, dh: nat, x: nat, y: nat) returns (b: byte)
    requires IsImage(img, w) && w > 0 && |img| > 0 && x < dw && y < dh
    ensures b == Pixel(img, w, dw, dh, x, y)
  {
    SpanIsInside(x, w, dw);
    SpanIsInside(y, |img|, dh);
    var x0, x1 := SpanStart(x, w, dw), SpanEnd(x, w, dw);
    var y0, y1 := SpanStart(y, |img|, dh), SpanEnd(y, |img|, dh);
    AverageIsByte(img, w, x0, x1, y0, y1);
    var sum, count := SumBox(img, w, x0, x1, y0, y1);
    b := sum / count;
  }

  // --- Error diffusion, as a recurrence -------------------------------------------

  // Integer division that truncates toward zero.
  function Sixteenth(n: int): int { if n >= 0 then n / 16 else -((-n) / 16) }

  function Clamp(v: int): byte { if v < 0 then 0 else if v > 255 then 255 else v }

  // The error a cell of value v passes on.
  function Error(v: int, threshold: byte): int { if Clamp(v) < threshold then Clamp(v) else Clamp(v) - 255 }

  // The value a cell has when the scan reads it: its gray and what its four predecessors
  // passed on.
  function Value(img: Image, w: nat, threshold: byte, i: nat, j: nat): int
    requires IsImage(img, w) && i < w && j < |img|
    decreases j, i
  {
    img[j][i]
    + (if i > 0 then Sixteenth(7 * Error(Value(img, w, threshold, i - 1, j), threshold)) else 0)
    + (if j > 0 && i + 1 < w then Sixteenth(3 * Error(Value(img, w, threshold, i + 1, j - 1), threshold)) else 0)
    + (if j > 0 then Sixteenth(5 * Error(Value(img, w, threshold, i, j - 1), threshold)) else 0)
    + (if j > 0 && i > 0 then Sixteenth(Error(Value(img, w, threshold, i - 1, j - 1), threshold)) else 0)
  }

  predicate Dot(img: Image, w: nat, threshold: byte, i: nat, j: nat)
    requires IsImage(img, w) && i < w && j < |img|
  {
    Clamp(Value(img, w, threshold, i, j)) < threshold
  }

  // What cell (i, j) has received once the scan has passed every cell before (x, y).
  predicate Passed(i: int, j: int, x: nat, y: nat) { j < y || (j == y && i < x) }

  function Share(img: Image, w: nat, threshold: byte, weight: nat, i: int, j: int, x: nat, y: nat): int
    requires IsImage(img, w)
  {
    if 0 <= i < w && 0 <= j < |img| && Passed(i, j, x, y) then Sixteenth(weight * Error(Value(img, w, threshold, i, j), threshold)) else 0
  }

  function Cell(img: Image, w: nat, threshold: byte, i: nat, j: nat, x: nat, y: nat): int
    requires IsImage(img, w) && i < w && j < |img|
  {
    img[j][i] + Share(img, w, threshold, 7, i - 1, j, x, y) + Share(img, w, threshold, 3, i + 1, j - 1, x, y)
    + Share(img, w, threshold, 5, i, j - 1, x, y) + Share(img, w, threshold, 1, i - 1, j - 1, x, y)
  }

  lemma ErrorBounds(v: int, threshold: byte)
    ensures -255 <= Error(v, threshold) <= 254
  {
  }

  lemma SixteenthBounds(e: int)
    requires -255 <= e <= 254
    ensures -111 <= Sixteenth(7 * e) <= 111
    ensures -47 <= Sixteenth(3 * e) <= 47
    ensures -79 <= Sixteenth(5 * e) <= 79
    ensures -15 <= Sixteenth(1 * e) <= 15
  {
  }

  lemma ShareBounds(img: Image, w: nat, threshold: byte, weight: nat, i: int, j: int, x: nat, y: nat)
    requires IsImage(img, w) && (weight == 7 || weight == 3 || weight == 5 || weight == 1)
    ensures var m := if weight == 7 then 111 else if weight == 3 then 47 else if weight == 5 then 79 else 15;
            -m <= Share(img, w, threshold, weight, i, j, x, y) <= m
  {
    if 0 <= i < w && 0 <= j < |img| {
      ErrorBounds(Value(img, w, threshold, i, j), threshold);
      SixteenthBounds(Error(Value(img, w, threshold, i, j), threshold));
    }
  }

  // Throughout the scan every cell of the working buffer stays within [-252, 507].
  lemma CellBounds(img: Image, w: nat, threshold: byte, i: nat, j: nat, x: nat, y: nat)
    requires IsImage(img, w) && i < w && j < |img|
    ensures -252 <= Cell(img, w, threshold, i, j, x, y) <= 507
  {
    ShareBounds(img, w, threshold, 7, i - 1, j, x, y);
    ShareBounds(img, w, threshold, 3, i + 1, j - 1, x, y);
    ShareBounds(img, w, threshold, 5, i, j - 1, x, y);
    ShareBounds(img, w, threshold, 1, i - 1, j - 1, x, y);
  }

  // When the scan reaches a cell, the cell holds its value in the recurrence.
  lemma CellIsValue(img: Image, w: nat, threshold: byte, i: nat, j: nat)
    requires IsImage(img, w) && i < w && j < |img|
    ensures Cell(img, w, threshold, i, j, i, j) == Value(img, w, threshold, i, j)
  {
  }

  // --- Packed dots ----------------------------------------------------------------

  // 0x80 >> k.
  function Mask(k: nat): bv8
    requires k < 8
  {
    match k
    case 0 => 0x80 case 1 => 0x40 case 2 => 0x20 case 3 => 0x10
    case 4 => 0x08 case 5 => 0x04 case 6 => 0x02 case _ => 0x01
  }

  predicate BitOf(b: bv8, k: nat)
    requires k < 8
  {
    b & Mask(k) != 0
  }

  lemma OrSetsOneBit(b: bv8, k: nat, j: nat)
    requires k < 8 && j < 8
    ensures BitOf(b | Mask(k), j) <==> j == k || BitOf(b, j)
  {
  }

  class Packed {
    const width: nat
    const height: nat
    const bytesPerRow: nat
    const data: array2<bv8>

    constructor (width: nat, height: nat)
      ensures this.width == width && this.height == height && bytesPerRow == (width + 7) / 8
      ensures fresh(data) && data.Length0 == height && data.Length1 == bytesPerRow
      ensures forall j, i :: 0 <= j < height && 0 <= i < bytesPerRow ==> data[j, i] == 0
    {
      this.width, this.height, bytesPerRow := width, height, (width + 7) / 8;
      data := new bv8[height, (width + 7) / 8]((j, i) => 0);
    }

    predicate Shaped() { bytesPerRow == (width + 7) / 8 && data.Length0 == height && data.Length1 == bytesPerRow }

    predicate IsDot(x: nat, y: nat)
      requires Shaped() && y < height && x < 8 * bytesPerRow
      reads data
    {
      BitOf(data[y, x / 8], x % 8)
    }

    // Sets one dot and no other.
    method SetDot(x: nat, y: nat)
      requires Shaped() && y < height && x < width
      modifies data
      ensures forall j, i :: 0 <= j < height && 0 <= i < 8 * bytesPerRow ==> (IsDot(i, j) <==> old(IsDot(i, j)) || (i == x && j == y))
    {
      data[y, x / 8] := data[y, x / 8] | Mask(x % 8);
      forall j, i | 0 <= j < height && 0 <= i < 8 * bytesPerRow
        ensures IsDot(i, j) <==> old(IsDot(i, j)) || (i == x && j == y)
      {
        OrSetsOneBit(old(data[y, x / 8]), x % 8, i % 8);
        assert i == 8 * (i / 8) + i % 8 && x == 8 * (x / 8) + x % 8;
      }
    }
  }

  // --- Binarisation ---------------------------------------------------------------

  // A dot for every gray value below the threshold, and nothing in the padding.
  method FixedThreshold(img: Image, w: nat, threshold: byte, packed: Packed)
    requires IsImage(img, w) && packed.Shaped() && packed.width == w && packed.height == |img|
    requires forall j, i :: 0 <= j < |img| && 0 <= i < 8 * packed.bytesPerRow ==> !packed.IsDot(i, j)
    modifies packed.data
    ensures forall j, i :: 0 <= j < |img| && 0 <= i < 8 * packed.bytesPerRow ==>
              (packed.IsDot(i, j) <==> i < w && img[j][i] < threshold)
  {
    for y := 0 to |img|
      invariant forall j, i :: 0 <= j < |img| && 0 <= i < 8 * packed.bytesPerRow ==>
                  (packed.IsDot(i, j) <==> i < w && j < y && img[j][i] < threshold)
    {
      for x := 0 to w
        invariant forall j, i :: 0 <= j < |img| && 0 <= i < 8 * packed.bytesPerRow ==>
                    (packed.IsDot(i, j) <==> i < w && Passed(i, j, x, y) && img[j][i] < threshold)
      {
        if img[y][x] < threshold { packed.SetDot(x, y); }
      }
    }
  }

  // What the cell at (x, y) passes to cell (i, j) when it is scanned.
  function Passes(e: int, x: nat, y: nat, i: nat, j: nat): int {
    if i == x + 1 && j == y then Sixteenth(7 * e)
    else if i + 1 == x && j == y + 1 then Sixteenth(3 * e)
    else if i == x && j == y + 1 then Sixteenth(5 * e)
    else if i == x + 1 && j == y + 1 then Sixteenth(e)
    else 0
  }

  lemma ShareStep(img: Image, w: nat, threshold: byte, weight: nat, i: int, j: int, x: nat, y: nat)
    requires IsImage(img, w) && x < w && y < |img|
    ensures Share(img, w, threshold, weight, i, j, x + 1, y)
            == Share(img, w, threshold, weight, i, j, x, y)
               + if i == x && j == y then Sixteenth(weight * Error(Value(img, w, threshold, x, y), threshold)) else 0
  {
  }

  // Scanning one cell moves every other cell by exactly what it is passed.
  lemma CellStep(img: Image, w: nat, threshold: byte, i: nat, j: nat, x: nat, y: nat)
    requires IsImage(img, w) && x < w && y < |img| && i < w && j < |img|
    ensures Cell(img, w, threshold, i, j, x + 1, y)
            == Cell(img, w, threshold, i, j, x, y) + Passes(Error(Value(img, w, threshold, x, y), threshold), x, y, i, j)
  {
    ShareStep(img, w, threshold, 7, i - 1, j, x, y);
    ShareStep(img, w, threshold, 3, i + 1, j - 1, x, y);
    ShareStep(img, w, threshold, 5, i, j - 1, x, y);
    ShareStep(img, w, threshold, 1, i - 1, j - 1, x, y);
    PassesAddUp(Error(Value(img, w, threshold, x, y), threshold), x, y, i, j);
  }

  lemma PassesAddUp(e: int, x: nat, y: nat, i: nat, j: nat)
    ensures Passes(e, x, y, i, j)
            == (if i - 1 == x && j == y then Sixteenth(7 * e) else 0) + (if i + 1 == x && j - 1 == y then Sixteenth(3 * e) else 0)
               + (if i == x && j - 1 == y then Sixteenth(5 * e) else 0) + (if i - 1 == x && j - 1 == y then Sixteenth(1 * e) else 0)
  {
  }

  lemma RowEnd(img: Image, w: nat, threshold: byte, i: nat, j: nat, y: nat)
    requires IsImage(img, w) && i < w && j < |img|
    ensures Cell(img, w, threshold, i, j, w, y) == Cell(img, w, threshold, i, j, 0, y + 1)
  {
  }

  // The working buffer when the scan stands at (x, y).
  ghost predicate Holds(work: array2<int>, img: Image, w: nat, threshold: byte, x: nat, y: nat)
    requires IsImage(img, w) && work.Length0 == |img| && work.Length1 == w
    reads work
  {
    forall j, i :: 0 <= j < |img| && 0 <= i < w ==> work[j, i] == Cell(img, w, threshold, i, j, x, y)
  }

  // Hands an error on to the four cells that are still to be scanned.
  method PassOn(work: array2<int>, error: int, x: nat, y: nat)
    requires x < work.Length1 && y < work.Length0
    modifies work
    ensures forall j, i :: 0 <= j < work.Length0 && 0 <= i < work.Length1 ==> work[j, i] == old(work[j, i]) + Passes(error, x, y, i, j)
  {
    if x + 1 < work.Length1 { work[y, x + 1] := work[y, x + 1] + Sixteenth(error * 7); }
    if y + 1 < work.Length0 {
      if x > 0 { work[y + 1, x - 1] := work[y + 1, x - 1] + Sixteenth(error * 3); }
      work[y + 1, x] := work[y + 1, x] + Sixteenth(error * 5);
      if x + 1 < work.Length1 { work[y + 1, x + 1] := work[y + 1, x + 1] + Sixteenth(error * 1); }
    }
  }

  // One cell of the scan, in place.
  method DiffuseOne(work: array2<int>, ghost img: Image, w: nat, threshold: byte, x: nat, y: nat) returns (black: bool)
    requires IsImage(img, w) && work.Length0 == |img| && work.Length1 == w && x < w && y < |img|
    requires Holds(work, img, w, threshold, x, y)
    modifies work
    ensures Holds(work, img, w, threshold, x + 1, y) && black == Dot(img, w, threshold, x, y)
  {
    CellIsValue(img, w, threshold, x, y);
    var oldValue := Clamp(work[y, x]);
    var newValue := if oldValue < threshold then 0 else 255;
    black := newValue == 0;
    var error := oldValue - newValue;
    PassOn(work, error, x, y);
    forall j, i | 0 <= j < |img| && 0 <= i < w ensures work[j, i] == Cell(img, w, threshold, i, j, x + 1, y) {
      CellStep(img, w, threshold, i, j, x, y);
    }
  }

  // The dots when the scan stands at (x, y): those of the cells passed, and no padding.
  ghost predicate DotsAt(packed: Packed, img: Image, w: nat, threshold: byte, x: nat, y: nat)
    requires IsImage(img, w) && packed.Shaped() && packed.width == w && packed.height == |img|
    reads packed.data
  {
    forall j, i :: 0 <= j < |img| && 0 <= i < 8 * packed.bytesPerRow ==>
      (packed.IsDot(i, j) <==> i < w && Passed(i, j, x, y) && Dot(img, w, threshold, i, j))
  }

  method ScanOne(work: array2<int>, img: Image, w: nat, threshold: byte, packed: Packed, x: nat, y: nat)
    requires IsImage(img, w) && work.Length0 == |img| && work.Length1 == w && x < w && y < |img|
    requires packed.Shaped() && packed.width == w && packed.height == |img| && (work as object) != (packed.data as object)
    requires Holds(work, img, w, threshold, x, y) && DotsAt(packed, img, w, threshold, x, y)
    modifies work, packed.data
    ensures Holds(work, img, w, threshold, x + 1, y) && DotsAt(packed, img, w, threshold, x + 1, y)
  {
    var black := DiffuseOne(work, img, w, threshold, x, y);
    if black { packed.SetDot(x, y); }
  }

  // `passed` is what the buffer held after each cell of the row.
  method ScanRow(work: array2<int>, img: Image, w: nat, threshold: byte, packed: Packed, y: nat)
    returns (ghost passed: seq<seq<seq<int>>>)
    requires IsImage(img, w) && work.Length0 == |img| && work.Length1 == w && y < |img|
    requires packed.Shaped() && packed.width == w && packed.height == |img| && (work as object) != (packed.data as object)
    requires Holds(work, img, w, threshold, 0, y) && DotsAt(packed, img, w, threshold, 0, y)
    modifies work, packed.data
    ensures Holds(work, img, w, threshold, 0, y + 1) && DotsAt(packed, img, w, threshold, 0, y + 1)
    ensures |passed| == w && forall x :: 0 <= x < w ==> AllInRange(passed[x])
    ensures forall x :: 0 <= x < w ==> IsBuffer(passed[x], img, w, threshold, x + 1, y)
  {
    passed := [];
    for x := 0 to w
      invariant Holds(work, img, w, threshold, x, y) && DotsAt(packed, img, w, threshold, x, y)
      invariant |passed| == x && forall k :: 0 <= k < x ==> AllInRange(passed[k]) && IsBuffer(passed[k], img, w, threshold, k + 1, y)
    {
      ScanOne(work, img, w, threshold, packed, x, y);
      ghost var now := Contents(work);
      BufferIsInRange(work, img, w, threshold, x + 1, y);
      passed := passed + [now];
    }
    RowIsDone(work, img, w, threshold, packed, y);
  }

  // The working buffer as a value.
  ghost function Contents(work: array2<int>): (rows: seq<seq<int>>)
    reads work
    ensures |rows| == work.Length0 && forall j :: 0 <= j < |rows| ==> |rows[j]| == work.Length1
    ensures forall j, i :: 0 <= j < work.Length0 && 0 <= i < work.Length1 ==> rows[j][i] == work[j, i]
  {
    seq(work.Length0, j requires 0 <= j < work.Length0 reads work =>
      seq(work.Length1, i requires 0 <= i < work.Length1 reads work => work[j, i]))
  }

  predicate AllInRange(rows: seq<seq<int>>) {
    forall j, i :: 0 <= j < |rows| && 0 <= i < |rows[j]| ==> -252 <= rows[j][i] <= 507
  }

  // What the buffer holds when the scan stands at (x, y).
  ghost predicate IsBuffer(rows: seq<seq<int>>, img: Image, w: nat, threshold: byte, x: nat, y: nat) {
    && IsImage(img, w) && |rows| == |img|
    && forall j, i :: 0 <= j < |img| && 0 <= i < w ==> |rows[j]| == w && rows[j][i] == Cell(img, w, threshold, i, j, x, y)
  }

  lemma BufferIsInRange(work: array2<int>, img: Image, w: nat, threshold: byte, x: nat, y: nat)
    requires IsImage(img, w) && work.Length0 == |img| && work.Length1 == w && Holds(work, img, w, threshold, x, y)
    ensures AllInRange(Contents(work)) && IsBuffer(Contents(work), img, w, threshold, x, y)
  {
    forall j, i | 0 <= j < work.Length0 && 0 <= i < work.Length1 ensures -252 <= work[j, i] <= 507 {
      CellBounds(img, w, threshold, i, j, x, y);
    }
  }

  lemma RowIsDone(work: array2<int>, img: Image, w: nat, threshold: byte, packed: Packed, y: nat)
    requires IsImage(img, w) && work.Length0 == |img| && work.Length1 == w && y < |img|
    requires packed.Shaped() && packed.width == w && packed.height == |img|
    requires Holds(work, img, w, threshold, w, y) && DotsAt(packed, img, w, threshold, w, y)
    ensures Holds(work, img, w, threshold, 0, y + 1) && DotsAt(packed, img, w, threshold, 0, y + 1)
  {
    forall j, i | 0 <= j < |img| && 0 <= i < w ensures work[j, i] == Cell(img, w, threshold, i, j, 0, y + 1) {
      RowEnd(img, w, threshold, i, j, y);
    }
  }

  // Where the scan's history has the buffer as it was after cell (x, y).
  function After(w: nat, x: nat, y: nat): nat { 1 + y * w + x }

  ghost predicate RecordedAt(states: seq<seq<seq<int>>>, img: Image, w: nat, threshold: byte, x: nat, y: nat) {
    After(w, x, y) < |states| && IsBuffer(states[After(w, x, y)], img, w, threshold, x + 1, y)
  }

  // The first entry is the buffer before the scan, and the entries after it are the buffer
  // after each cell of the rows, in scan order.
  ghost predicate IsHistory(states: seq<seq<seq<int>>>, img: Image, w: nat, threshold: byte, rows: nat) {
    && |states| == 1 + rows * w && IsBuffer(states[0], img, w, threshold, 0, 0)
    && forall x, y :: 0 <= x < w && 0 <= y < rows ==> RecordedAt(states, img, w, threshold, x, y)
  }

  lemma RowsBelow(w: nat, x: nat, y: nat, rows: nat)
    requires x < w && y < rows
    ensures After(w, x, y) < 1 + rows * w
  {
    Scale(w, y + 1, rows);
  }

  lemma RowJoinsHistory(states: seq<seq<seq<int>>>, passed: seq<seq<seq<int>>>, img: Image, w: nat, threshold: byte, y: nat)
    requires IsHistory(states, img, w, threshold, y)
    requires |passed| == w && forall x :: 0 <= x < w ==> IsBuffer(passed[x], img, w, threshold, x + 1, y)
    ensures IsHistory(states + passed, img, w, threshold, y + 1)
  {
    assert (y + 1) * w == y * w + w;
    forall x, k | 0 <= x < w && 0 <= k < y + 1 ensures RecordedAt(states + passed, img, w, threshold, x, k) {
      if k < y {
        RowsBelow(w, x, k, y);
        assert RecordedAt(states, img, w, threshold, x, k);
      }
    }
  }

  // The scan in place computes the recurrence: a cell becomes a dot exactly when its value
  // there is below the threshold, and nothing is set in the padding. `states` is what the
  // buffer held at every point of the scan; no cell of any of it leaves [-252, 507].
  method FloydSteinberg(img: Image, w: nat, threshold: byte, packed: Packed) returns (ghost states: seq<seq<seq<int>>>)
    requires IsImage(img, w) && packed.Shaped() && packed.width == w && packed.height == |img|
    requires forall j, i :: 0 <= j < |img| && 0 <= i < 8 * packed.bytesPerRow ==> !packed.IsDot(i, j)
    modifies packed.data
    ensures forall j, i :: 0 <= j < |img| && 0 <= i < 8 * packed.bytesPerRow ==>
              (packed.IsDot(i, j) <==> i < w && Dot(img, w, threshold, i, j))
    ensures IsHistory(states, img, w, threshold, |img|) && forall s :: s in states ==> AllInRange(s)
  {
    var work := new int[|img|, w]((j, i) requires 0 <= j < |img| && 0 <= i < w => img[j][i]);
    BufferIsInRange(work, img, w, threshold, 0, 0);
    states := [Contents(work)];
    for y := 0 to |img|
      invariant fresh(work) && work.Length0 == |img| && work.Length1 == w
      invariant Holds(work, img, w, threshold, 0, y) && DotsAt(packed, img, w, threshold, 0, y)
      invariant IsHistory(states, img, w, threshold, y) && forall s :: s in states ==> AllInRange(s)
    {
      ghost var passed := ScanRow(work, img, w, threshold, packed, y);
      RowJoinsHistory(states, passed, img, w, threshold, y);
      states := states + passed;
    }
  }

  lemma WhitePassesNothing(weight: nat, v: int, threshold: byte)
    requires v == 255
    ensures Error(v, threshold) == 0 && Sixteenth(weight * Error(v, threshold)) == 0
  {
  }

  lemma WhiteAmongWhite(img: Image, w: nat, threshold: byte, i: nat, j: nat)
    requires IsImage(img, w) && i < w && j < |img| && img[j][i] == 255
    requires i > 0 ==> Value(img, w, threshold, i - 1, j) == 255
    requires j > 0 && i + 1 < w ==> Value(img, w, threshold, i + 1, j - 1) == 255
    requires j > 0 ==> Value(img, w, threshold, i, j - 1) == 255
    requires j > 0 && i > 0 ==> Value(img, w, threshold, i - 1, j - 1) == 255
    ensures Value(img, w, threshold, i, j) == 255
  {
    WhitePassesNothing(7, 255, threshold);
    WhitePassesNothing(3, 255, threshold);
    WhitePassesNothing(5, 255, threshold);
    WhitePassesNothing(1, 255, threshold);
  }

  lemma {:induction false} WhiteStaysWhite(img: Image, w: nat, threshold: byte, i: nat, j: nat)
    requires IsImage(img, w) && i < w && j < |img| && Between(img, 255, 255)
    ensures Value(img, w, threshold, i, j) == 255
    decreases j, i
  {
    if i > 0 { WhiteStaysWhite(img, w, threshold, i - 1, j); }
    if j > 0 {
      WhiteStaysWhite(img, w, threshold, i, j - 1);
      if i + 1 < w { WhiteStaysWhite(img, w, threshold, i + 1, j - 1); }
      if i > 0 { WhiteStaysWhite(img, w, threshold, i - 1, j - 1); }
    }
    WhiteAmongWhite(img, w, threshold, i, j);
  }

  // White paper stays white: no error ever arises to be passed on, and no dot is set.
  lemma WhiteSetsNoDot(img: Image, w: nat, threshold: byte, i: nat, j: nat)
    requires IsImage(img, w) && i < w && j < |img| && Between(img, 255, 255)
    ensures !Dot(img, w, threshold, i, j)
  {
    WhiteStaysWhite(img, w, threshold, i, j);
  }

  // --- The whole conversion -------------------------------------------------------

  const UINT32 := 0x1_0000_0000
  const MAX_ROWS := 0xFFFF

  // Rows that keep the aspect ratio, and what is left of them in 32 bits.
  function ScaledRows(width: nat, height: nat, target: nat): nat
    requires width > 0
  {
    (height * target + width / 2) / width
  }

  function TargetRows(width: nat, height: nat, target: nat): nat
    requires width > 0
  {
    var rows := ScaledRows(width, height, target) % UINT32;
    if rows == 0 then 1 else rows
  }

  // The check against the 16-bit height field sees the true height if and only if that
  // height fits 32 bits: beyond, an image of any height may be accepted as a short one.
  lemma HeightCheckIff(width: nat, height: nat, target: nat)
    requires width > 0
    ensures TargetRows(width, height, target) == (if ScaledRows(width, height, target) == 0 then 1 else ScaledRows(width, height, target))
            <==> ScaledRows(width, height, target) < UINT32
    ensures ScaledRows(width, height, target) < UINT32 ==>
              (TargetRows(width, height, target) > MAX_ROWS <==> ScaledRows(width, height, target) > MAX_ROWS)
  {
  }

  // For instance a one-dot-wide column of 2^31 rows, doubled, becomes a single row.
  lemma TallImageBecomesOneRow()
    ensures ScaledRows(1, 0x8000_0000, 2) == UINT32 && TargetRows(1, 0x8000_0000, 2) == 1
  {
  }

  // The resampled image, cell by cell.
  ghost predicate IsResampled(img: Image, w: nat, dw: nat, dh: nat, scaled: Image) {
    && IsImage(img, w) && w > 0 && |img| > 0 && |scaled| == dh && IsImage(scaled, dw)
    && forall y, x :: 0 <= y < dh && 0 <= x < dw ==> scaled[y][x] == Pixel(img, w, dw, dh, x, y)
  }

  // None stands for the thrown EncodingError.
  method PackGrayscale(img: Image, w: nat, target: nat, diffuse: bool, threshold: byte)
    returns (packed: Option<Packed>, ghost scaled: Image)
    requires IsImage(img, w)
    ensures packed.None? <==> |img| == 0 || w == 0 || target == 0 || TargetRows(w, |img|, target) > MAX_ROWS
    ensures packed.Some? ==> var p := packed.value;
              && p.Shaped() && p.width == target && p.height == TargetRows(w, |img|, target)
              && IsResampled(img, w, target, p.height, scaled)
              && forall j, i :: 0 <= j < p.height && 0 <= i < 8 * p.bytesPerRow ==>
                   (p.IsDot(i, j) <==> i < target && if diffuse then Dot(scaled, target, threshold, i, j) else scaled[j][i] < threshold)
  {
    scaled := [];
    if w == 0 || |img| == 0 || target == 0 { return None, []; }
    var rows := TargetRows(w, |img|, target);
    if rows > MAX_ROWS { return None, []; }
    var gray := ResampleGray(img, w, target, rows);
    var p := new Packed(target, rows);
    if diffuse { ghost var _ := FloydSteinberg(gray, target, threshold, p); } else { FixedThreshold(gray, target, threshold, p); }
    return Some(p), gray;
  }
}
