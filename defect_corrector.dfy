/*
 * PipelineDefectCorrector: every listed defective sensor pixel that falls
 * inside the captured window is replaced, in place in the raw buffer, by
 * the integer mean of its valid 3x3 neighbours.
 */
module DefectCorrector {
  import C = Common

  datatype Point = Point(x: int, y: int)

  /** The captured window on the sensor: its size and its offset. */
  datatype ImageSize = ImageSize(width: int, height: int, offsetX: int, offsetY: int)

  /** The image dimensions of the pipeline's `ImageConfiguration`, used for neighbour reads. */
  datatype Geometry = Geometry(imageWidth: int, imageHeight: int)

  const Slots: int := 9

  predicate Int16(v: int)
  {
    -0x8000 <= v < 0x8000
  }

  predicate AllInt16(s: seq<int>)
  {
    forall i :: 0 <= i < |s| ==> Int16(s[i])
  }

  /** Whether defect `d` lies in the captured window (`_Correct`'s range check). */
  predicate InWindow(size: ImageSize, d: Point)
  {
    size.offsetX <= d.x < size.offsetX + size.width && size.offsetY <= d.y < size.offsetY + size.height
  }

  /** A defect's position in the raw buffer's coordinates. */
  function Translate(size: ImageSize, d: Point): (p: Point)
    ensures InWindow(size, d) ==> 0 <= p.x < size.width && 0 <= p.y < size.height
  {
    Point(d.x - size.offsetX, d.y - size.offsetY)
  }

  /** Slot k of the 3x3 neighbourhood, row by row from the top-left: its offsets. */
  function SlotDx(k: int): int { k % 3 - 1 }
  function SlotDy(k: int): int { k / 3 - 1 }

  /** Slot `3 * row + column` is the neighbour `column - 1` across and `row - 1` down. */
  lemma SlotOf(row: int, column: int)
    requires 0 <= row < 3 && 0 <= column < 3
    ensures SlotDx(3 * row + column) == column - 1 && SlotDy(3 * row + column) == row - 1
  {
    if row == 0 {
      assert 3 * row + column == column;
    } else if row == 1 {
      assert 3 * row + column == 3 + column;
    } else {
      assert 3 * row + column == 6 + column;
    }
  }

  predicate InImage(g: Geometry, x: int, y: int)
  {
    0 <= x < g.imageWidth && 0 <= y < g.imageHeight
  }

  lemma IndexInside(x: int, y: int, w: int, h: int)
    requires 0 <= x < w && 0 <= y < h
    ensures 0 <= y * w + x < w * h
  {
    assert y * w + x < y * w + w == (y + 1) * w;
    assert (y + 1) * w <= h * w;
  }

  predicate Fits(raw: seq<int>, g: Geometry, size: ImageSize)
  {
    g.imageWidth >= 0 && g.imageHeight >= 0 && g.imageWidth * g.imageHeight <= |raw|
    && size.width >= 0 && size.height >= 0 && size.width * size.height <= |raw|
  }

  /** `getPixelValue`'s value: the pixel when it exists, 0 otherwise. */
  function PixelValue(raw: seq<int>, g: Geometry, x: int, y: int): int
    requires g.imageWidth >= 0 && g.imageHeight >= 0 && g.imageWidth * g.imageHeight <= |raw|
  {
    if InImage(g, x, y) then
      IndexInside(x, y, g.imageWidth, g.imageHeight);
      raw[y * g.imageWidth + x]
    else 0
  }

  /**
   * How a neighbour at buffer position (x, y) is looked up in the defect
   * list, which holds sensor coordinates. `getPixelValue` passes the buffer
   * coordinates themselves (line 296); the sensor position is the one the
   * list calls for.
   */
  datatype Lookup = BufferCoordinates | SensorCoordinates

  predicate Listed(lookup: Lookup, defects: seq<Point>, size: ImageSize, x: int, y: int)
  {
    match lookup
    case BufferCoordinates => Point(x, y) in defects
    case SensorCoordinates => Point(x + size.offsetX, y + size.offsetY) in defects
  }

  /** The segment rules of `correctDefectivePixel`: top row, then left column or else right column. */
  predicate Masked(g: Geometry, p: Point, k: int)
  {
    || (p.y == 0 && 0 <= p.x < g.imageWidth && 0 <= k < 3)
    || (p.x == 0 && p.y >= 0 && k % 3 == 0)
    || (!(p.x == 0 && p.y >= 0) && p.x == g.imageWidth - 1 && p.y >= 0 && k % 3 == 2)
  }

  predicate SlotValid(lookup: Lookup, defects: seq<Point>, g: Geometry, size: ImageSize, p: Point, k: int)
  {
    var x, y := p.x + SlotDx(k), p.y + SlotDy(k);
    InImage(g, x, y) && !Listed(lookup, defects, size, x, y) && !Masked(g, p, k)
  }

  /** A valid neighbour exists in the image, is not a listed defect, and is not cut by a segment rule — and conversely. */
  lemma SlotValidMeans(lookup: Lookup, defects: seq<Point>, g: Geometry, size: ImageSize, p: Point, k: int)
    requires 0 <= k < Slots
    ensures SlotValid(lookup, defects, g, size, p, k) <==>
      var x, y := p.x + SlotDx(k), p.y + SlotDy(k);
      && 0 <= x < g.imageWidth && 0 <= y < g.imageHeight
      && !Listed(lookup, defects, size, x, y)
      && !(p.y == 0 && k < 3)
      && !(p.x == 0 && k % 3 == 0)
      && !(p.x == g.imageWidth - 1 && k % 3 == 2)
  {
  }

  /** The sum and the number of the valid slots among the first `n`. */
  function ValidSum(raw: seq<int>, lookup: Lookup, defects: seq<Point>, g: Geometry, size: ImageSize, p: Point, n: nat): int
    requires g.imageWidth >= 0 && g.imageHeight >= 0 && g.imageWidth * g.imageHeight <= |raw|
  {
    if n == 0 then 0
    else ValidSum(raw, lookup, defects, g, size, p, n - 1)
         + (if SlotValid(lookup, defects, g, size, p, n - 1)
            then PixelValue(raw, g, p.x + SlotDx(n - 1), p.y + SlotDy(n - 1)) else 0)
  }

  function ValidCount(lookup: Lookup, defects: seq<Point>, g: Geometry, size: ImageSize, p: Point, n: nat): (c: nat)
    ensures c <= n
  {
    if n == 0 then 0
    else ValidCount(lookup, defects, g, size, p, n - 1) + (if SlotValid(lookup, defects, g, size, p, n - 1) then 1 else 0)
  }

  /** The valid neighbours' values lie in [lo, hi], so their sum lies between count*lo and count*hi. */
  lemma {:induction false} ValidSumBounds(raw: seq<int>, lookup: Lookup, defects: seq<Point>, g: Geometry, size: ImageSize, p: Point, n: nat, lo: int, hi: int)
    requires g.imageWidth >= 0 && g.imageHeight >= 0 && g.imageWidth * g.imageHeight <= |raw|
    requires forall i :: 0 <= i < |raw| ==> lo <= raw[i] <= hi
    ensures ValidCount(lookup, defects, g, size, p, n) * lo <= ValidSum(raw, lookup, defects, g, size, p, n)
    ensures ValidSum(raw, lookup, defects, g, size, p, n) <= ValidCount(lookup, defects, g, size, p, n) * hi
  {
    if n > 0 {
      ValidSumBounds(raw, lookup, defects, g, size, p, n - 1, lo, hi);
      var c, s := ValidCount(lookup, defects, g, size, p, n - 1), ValidSum(raw, lookup, defects, g, size, p, n - 1);
      if SlotValid(lookup, defects, g, size, p, n - 1) {
        var x, y := p.x + SlotDx(n - 1), p.y + SlotDy(n - 1);
        IndexInside(x, y, g.imageWidth, g.imageHeight);
        var v := PixelValue(raw, g, x, y);
        assert lo <= v <= hi;
        MulSucc(c, lo);
        MulSucc(c, hi);
        assert ValidCount(lookup, defects, g, size, p, n) == c + 1 && ValidSum(raw, lookup, defects, g, size, p, n) == s + v;
      } else {
        assert ValidCount(lookup, defects, g, size, p, n) == c && ValidSum(raw, lookup, defects, g, size, p, n) == s;
      }
    }
  }

  lemma MulSucc(c: int, m: int)
    ensures (c + 1) * m == c * m + m
  {
  }

  /** The replacement value of a defect at buffer position `p`, if it has a valid neighbour. */
  function Replacement(raw: seq<int>, lookup: Lookup, defects: seq<Point>, g: Geometry, size: ImageSize, p: Point): (r: Option<int>)
    requires g.imageWidth >= 0 && g.imageHeight >= 0 && g.imageWidth * g.imageHeight <= |raw|
    ensures r.None? <==> ValidCount(lookup, defects, g, size, p, Slots) == 0
  {
    var c := ValidCount(lookup, defects, g, size, p, Slots);
    if c > 0 then Some(C.TruncDiv(ValidSum(raw, lookup, defects, g, size, p, Slots), c)) else None
  }

  datatype Option<T> = None | Some(value: T)

  /** The truncated mean of values in [lo, hi] is in [lo, hi]: the 16-bit store never wraps. */
  lemma MeanBounds(sum: int, count: int, lo: int, hi: int)
    requires count > 0 && lo <= 0 <= hi && count * lo <= sum <= count * hi
    ensures lo <= C.TruncDiv(sum, count) <= hi
  {
    if sum >= 0 {
      DivAtMost(sum, count, hi);
    } else {
      DivAtMost(-sum, count, -lo);
    }
  }

  lemma DivAtMost(a: int, b: int, m: int)
    requires a >= 0 && b > 0 && a <= b * m
    ensures 0 <= a / b <= m
  {
    if a / b > m {
      assert a == b * (a / b) + a % b;
      assert b * (a / b) >= b * (m + 1) by {
        MulMono(b, m + 1, a / b);
      }
      assert false;
    }
  }

  lemma MulMono(b: int, x: int, y: int)
    requires b > 0 && x <= y
    ensures b * x <= b * y
  {
  }

  lemma ReplacementInRange(raw: seq<int>, lookup: Lookup, defects: seq<Point>, g: Geometry, size: ImageSize, p: Point)
    requires g.imageWidth >= 0 && g.imageHeight >= 0 && g.imageWidth * g.imageHeight <= |raw|
    requires AllInt16(raw)
    ensures Replacement(raw, lookup, defects, g, size, p).Some? ==> Int16(Replacement(raw, lookup, defects, g, size, p).value)
  {
    var c := ValidCount(lookup, defects, g, size, p, Slots);
    if c > 0 {
      ValidSumBounds(raw, lookup, defects, g, size, p, Slots, -0x8000, 0x7FFF);
      MeanBounds(ValidSum(raw, lookup, defects, g, size, p, Slots), c, -0x8000, 0x7FFF);
    }
  }

  /** `correctDefectivePixel` on a value: the buffer with the defect replaced, or unchanged without a valid neighbour. */
  function CorrectOne(raw: seq<int>, lookup: Lookup, defects: seq<Point>, g: Geometry, size: ImageSize, p: Point): (r: seq<int>)
    requires Fits(raw, g, size) && 0 <= p.x < size.width && 0 <= p.y < size.height
    ensures |r| == |raw|
  {
    match Replacement(raw, lookup, defects, g, size, p)
    case None => raw
    case Some(v) =>
      IndexInside(p.x, p.y, size.width, size.height);
      raw[p.y * size.width + p.x := v]
  }

  /** `_Correct` on a value: the listed defects in order, those outside the window skipped. */
  function CorrectAll(raw: seq<int>, lookup: Lookup, defects: seq<Point>, g: Geometry, size: ImageSize, n: nat): (r: seq<int>)
    requires Fits(raw, g, size) && n <= |defects|
    ensures |r| == |raw|
  {
    if n == 0 then raw
    else
      var before := CorrectAll(raw, lookup, defects, g, size, n - 1);
      if InWindow(size, defects[n - 1]) then CorrectOne(before, lookup, defects, g, size, Translate(size, defects[n - 1]))
      else before
  }

  /** The buffer index a defect in the window is written at. */
  function Target(size: ImageSize, d: Point): int
  {
    var p := Translate(size, d);
    p.y * size.width + p.x
  }

  /** Only the positions of listed defects inside the window change. */
  lemma {:induction false} OnlyListedWritten(raw: seq<int>, lookup: Lookup, defects: seq<Point>, g: Geometry, size: ImageSize, n: nat, i: int)
    requires Fits(raw, g, size) && n <= |defects| && 0 <= i < |raw|
    requires forall j :: 0 <= j < n && InWindow(size, defects[j]) ==> Target(size, defects[j]) != i
    ensures CorrectAll(raw, lookup, defects, g, size, n)[i] == raw[i]
  {
    if n > 0 {
      OnlyListedWritten(raw, lookup, defects, g, size, n - 1, i);
    }
  }

  /** Every value the correction writes is a 16-bit value. */
  lemma {:induction false} CorrectAllInt16(raw: seq<int>, lookup: Lookup, defects: seq<Point>, g: Geometry, size: ImageSize, n: nat)
    requires Fits(raw, g, size) && n <= |defects| && AllInt16(raw)
    ensures AllInt16(CorrectAll(raw, lookup, defects, g, size, n))
  {
    if n > 0 {
      CorrectAllInt16(raw, lookup, defects, g, size, n - 1);
      var before := CorrectAll(raw, lookup, defects, g, size, n - 1);
      if InWindow(size, defects[n - 1]) {
        ReplacementInRange(before, lookup, defects, g, size, Translate(size, defects[n - 1]));
      }
    }
  }

  /** With the lookup as written, a listed neighbour counts as valid once the window has an offset. */
  lemma ListedNeighbourCountedAsWritten()
    ensures var defects := [Point(2, 0), Point(3, 0)];
            var size := ImageSize(2, 1, 2, 0);
            var g := Geometry(2, 1);
            && InWindow(size, defects[1]) && Translate(size, defects[1]) == Point(1, 0)
            && SlotValid(BufferCoordinates, defects, g, size, Point(0, 0), 5)
            && !SlotValid(SensorCoordinates, defects, g, size, Point(0, 0), 5)
  {
    var defects := [Point(2, 0), Point(3, 0)];
    var size := ImageSize(2, 1, 2, 0);
    var g := Geometry(2, 1);
    assert SlotDx(5) == 1 && SlotDy(5) == 0;
    assert !Masked(g, Point(0, 0), 5);
    assert InImage(g, 1, 0);
    assert Point(1, 0) != defects[0] && Point(1, 0) != defects[1];
    assert !Listed(BufferCoordinates, defects, size, 1, 0);
    assert Listed(SensorCoordinates, defects, size, 1, 0) by {
      assert defects[1] == Point(1 + size.offsetX, 0 + size.offsetY);
    }
  }

  /** With the sensor-coordinate lookup, no listed defect is ever averaged in. */
  lemma ListedNeighbourInvalid(defects: seq<Point>, g: Geometry, size: ImageSize, p: Point, k: int, j: int)
    requires 0 <= j < |defects| && InWindow(size, defects[j])
    requires Translate(size, defects[j]) == Point(p.x + SlotDx(k), p.y + SlotDy(k))
    ensures !SlotValid(SensorCoordinates, defects, g, size, p, k)
  {
    assert Point(p.x + SlotDx(k) + size.offsetX, p.y + SlotDy(k) + size.offsetY) == defects[j];
  }

  /** `isDefective`: a linear search of the defect list. */
  method IsDefective(defects: seq<Point>, x: int, y: int) returns (found: bool)
    ensures found <==> Point(x, y) in defects
  {
    var i := 0;
    while i < |defects|
      invariant 0 <= i <= |defects|
      invariant Point(x, y) !in defects[..i]
    {
      if defects[i].x == x && defects[i].y == y {
        return true;
      }
      assert defects[..i + 1] == defects[..i] + [defects[i]];
      i := i + 1;
    }
    assert defects[..i] == defects;
    return false;
  }

  /** Slot `k` holds neighbour `k`'s value and whether it is usable. */
  predicate Gathered(raw: seq<int>, g: Geometry, size: ImageSize, lookup: Lookup, defects: seq<Point>, p: Point, k: int, value: int, valid: bool)
    requires g.imageWidth >= 0 && g.imageHeight >= 0 && g.imageWidth * g.imageHeight <= |raw|
  {
    && value == PixelValue(raw, g, p.x + SlotDx(k), p.y + SlotDy(k))
    && (valid <==> InImage(g, p.x + SlotDx(k), p.y + SlotDy(k)) && !Listed(lookup, defects, size, p.x + SlotDx(k), p.y + SlotDy(k)))
  }

  class Corrector {
    /** m_ImageConfiguration's image size. */
    var geometry: Geometry

    constructor (g: Geometry)
      ensures geometry == g
    {
      geometry := g;
    }

    method SetImageConfiguration(g: Geometry)
      modifies this
      ensures geometry == g
    {
      geometry := g;
    }

    /** `getPixelValue`: the value and whether it is usable. */
    method GetPixelValue(raw: array<int>, size: ImageSize, defects: seq<Point>, x: int, y: int) returns (value: int, valid: bool)
      requires geometry.imageWidth >= 0 && geometry.imageHeight >= 0 && geometry.imageWidth * geometry.imageHeight <= raw.Length
      ensures value == PixelValue(raw[..], geometry, x, y)
      ensures valid <==> InImage(geometry, x, y) && !Listed(BufferCoordinates, defects, size, x, y)
    {
      if x < 0 || x >= geometry.imageWidth || y < 0 || y >= geometry.imageHeight {
        value := 0;
        valid := false;
      } else {
        IndexInside(x, y, geometry.imageWidth, geometry.imageHeight);
        value := raw[y * geometry.imageWidth + x];
        var listed := IsDefective(defects, x, y);
        valid := !listed;
      }
    }

    /** `getNeighborPixels`: the nine neighbours row by row, each with its validity. */
    method GetNeighborPixels(raw: array<int>, size: ImageSize, defects: seq<Point>, p: Point)
      returns (values: array<int>, valid: array<bool>)
      requires geometry.imageWidth >= 0 && geometry.imageHeight >= 0 && geometry.imageWidth * geometry.imageHeight <= raw.Length
      ensures fresh(values) && fresh(valid) && values.Length == Slots && valid.Length == Slots
      ensures forall k :: 0 <= k < Slots ==>
        values[k] == PixelValue(raw[..], geometry, p.x + SlotDx(k), p.y + SlotDy(k))
      ensures forall k :: 0 <= k < Slots ==>
        (valid[k] <==> InImage(geometry, p.x + SlotDx(k), p.y + SlotDy(k)) && !Listed(BufferCoordinates, defects, size, p.x + SlotDx(k), p.y + SlotDy(k)))
    {
      ghost var image := raw[..];
      values := new int[Slots](_ => 0);
      valid := new bool[Slots](_ => false);
      var index := 0;
      var yIndex := p.y - 1;
      while yIndex <= p.y + 1
        invariant p.y - 1 <= yIndex <= p.y + 2 && index == 3 * (yIndex - (p.y - 1))
        invariant forall k :: 0 <= k < index ==> Gathered(image, geometry, size, BufferCoordinates, defects, p, k, values[k], valid[k])
      {
        var xIndex := p.x - 1;
        while xIndex <= p.x + 1
          invariant p.x - 1 <= xIndex <= p.x + 2 && index == 3 * (yIndex - (p.y - 1)) + (xIndex - (p.x - 1))
          invariant forall k :: 0 <= k < index ==> Gathered(image, geometry, size, BufferCoordinates, defects, p, k, values[k], valid[k])
        {
          SlotOf(yIndex - (p.y - 1), xIndex - (p.x - 1));
          var v, ok := GetPixelValue(raw, size, defects, xIndex, yIndex);
          values[index] := v;
          valid[index] := ok;
          index := index + 1;
          xIndex := xIndex + 1;
        }
        yIndex := yIndex + 1;
      }
    }

    /** `correctDefectivePixel`: neighbours gathered, segment rules applied, the mean of the valid ones written. */
    method CorrectDefectivePixel(raw: array<int>, size: ImageSize, defects: seq<Point>, p: Point)
      requires Fits(raw[..], geometry, size) && 0 <= p.x < size.width && 0 <= p.y < size.height
      modifies raw
      ensures raw[..] == CorrectOne(old(raw[..]), BufferCoordinates, defects, geometry, size, p)
    {
      var values, valid := GetNeighborPixels(raw, size, defects, p);
      ApplySegments(valid, p);
      var sum, count := SumValid(raw, size, defects, p, values, valid);
      if count > 0 {
        IndexInside(p.x, p.y, size.width, size.height);
        raw[p.y * size.width + p.x] := C.TruncDiv(sum, count);
      }
    }

    /** The segment rules: on the top row, the left column or the right column, the three outer slots are invalidated. */
    method ApplySegments(valid: array<bool>, p: Point)
      requires valid.Length == Slots
      modifies valid
      ensures forall k :: 0 <= k < Slots ==> (valid[k] <==> old(valid[k]) && !Masked(geometry, p, k))
    {
      if p.y == 0 && p.x >= 0 && p.x < geometry.imageWidth {
        valid[0], valid[1], valid[2] := false, false, false;
      }
      if p.x == 0 && p.y >= 0 {
        valid[0], valid[3], valid[6] := false, false, false;
      } else if p.x == geometry.imageWidth - 1 && p.y >= 0 {
        valid[2], valid[5], valid[8] := false, false, false;
      }
    }

    /** The averaging loop: the sum and the number of the valid neighbours. */
    method SumValid(raw: array<int>, size: ImageSize, defects: seq<Point>, p: Point, values: array<int>, valid: array<bool>)
      returns (sum: int, count: int)
      requires geometry.imageWidth >= 0 && geometry.imageHeight >= 0 && geometry.imageWidth * geometry.imageHeight <= raw.Length
      requires values.Length == Slots && valid.Length == Slots
      requires forall k :: 0 <= k < Slots ==>
        values[k] == PixelValue(raw[..], geometry, p.x + SlotDx(k), p.y + SlotDy(k))
      requires forall k :: 0 <= k < Slots ==> (valid[k] <==> SlotValid(BufferCoordinates, defects, geometry, size, p, k))
      ensures sum == ValidSum(raw[..], BufferCoordinates, defects, geometry, size, p, Slots)
      ensures count == ValidCount(BufferCoordinates, defects, geometry, size, p, Slots)
    {
      sum := 0;
      count := 0;
      var i := 0;
      while i < Slots
        invariant 0 <= i <= Slots
        invariant sum == ValidSum(raw[..], BufferCoordinates, defects, geometry, size, p, i)
        invariant count == ValidCount(BufferCoordinates, defects, geometry, size, p, i)
      {
        if valid[i] {
          sum := sum + values[i];
          count := count + 1;
        }
        i := i + 1;
      }
    }

    /** `_Correct`: each listed defect inside the window, translated to buffer coordinates and corrected in turn. */
    method Correct(raw: array<int>, size: ImageSize, defects: seq<Point>)
      requires Fits(raw[..], geometry, size)
      modifies raw
      ensures raw[..] == CorrectAll(old(raw[..]), BufferCoordinates, defects, geometry, size, |defects|)
    {
      var minX := size.offsetX;
      var maxX := size.offsetX + size.width;
      var minY := size.offsetY;
      var maxY := size.offsetY + size.height;
      var i := 0;
      while i < |defects|
        invariant 0 <= i <= |defects| && |raw[..]| == |old(raw[..])|
        invariant raw[..] == CorrectAll(old(raw[..]), BufferCoordinates, defects, geometry, size, i)
      {
        var d := defects[i];
        if d.x >= minX && d.x < maxX && d.y >= minY && d.y < maxY {
          CorrectDefectivePixel(raw, size, defects, Translate(size, d));
        }
        i := i + 1;
      }
    }
  }
}
