/*
 * QEldViewer (ConoscopeTestApp/Stream/qEldViewer.cpp): the image viewer
 * halves an image until it fits its window, turns the 16-bit pixels into a
 * grey RGBX bitmap, and colours false-colour images with a rainbow palette.
 */
module EldViewer {

  // ---------------------------------------------------------------- image indexing

  /** Row-major indices of a `width` × `height` image stay inside it. */
  lemma IndexInside(width: int, height: int, y: int, x: int)
    requires 0 <= y < height && 0 <= x < width
    ensures 0 <= y * width + x < width * height
  {
    assert y * width + x < (y + 1) * width;
    assert (y + 1) * width <= height * width;
  }

  /** Pixel (x, y) of a row-major image. */
  function At(source: seq<int>, width: int, height: int, y: int, x: int): int
    requires 0 <= y < height && 0 <= x < width && |source| >= width * height
  {
    IndexInside(width, height, y, x);
    source[y * width + x]
  }

  /** A 16-bit pixel buffer. */
  predicate Pixels16(s: seq<int>)
  {
    forall i :: 0 <= i < |s| ==> 0 <= s[i] < 0x1_0000
  }

  // ---------------------------------------------------------------- subsampling

  /** The subsampled size of one dimension (lines 378-382): half, rounded up. */
  function Half(n: int): (r: int)
    requires n >= 0
    ensures 2 * r == n || 2 * r == n + 1
  {
    if n % 2 == 0 then n / 2 else (n + 1) / 2
  }

  /**
   * What an output pixel is meant to be: the integer mean of the pixels of
   * its 2×2 source block that lie inside the image.
   */
  function BlockMean(source: seq<int>, width: int, height: int, r: int, c: int): int
    requires width >= 0 && height >= 0 && |source| >= width * height
    requires 0 <= r < Half(height) && 0 <= c < Half(width)
  {
    var wide := 2 * c + 1 < width;
    var tall := 2 * r + 1 < height;
    var sum := At(source, width, height, 2 * r, 2 * c)
               + (if wide then At(source, width, height, 2 * r, 2 * c + 1) else 0)
               + (if tall then At(source, width, height, 2 * r + 1, 2 * c) else 0)
               + (if wide && tall then At(source, width, height, 2 * r + 1, 2 * c + 1) else 0);
    sum / ((if wide then 2 else 1) * (if tall then 2 else 1))
  }

  /** The mean of 16-bit pixels is a 16-bit pixel. */
  lemma BlockMeanRange(source: seq<int>, width: int, height: int, r: int, c: int)
    requires width >= 0 && height >= 0 && |source| >= width * height && Pixels16(source)
    requires 0 <= r < Half(height) && 0 <= c < Half(width)
    ensures 0 <= BlockMean(source, width, height, r, c) < 0x1_0000
  {
    IndexInside(width, height, 2 * r, 2 * c);
    if 2 * c + 1 < width { IndexInside(width, height, 2 * r, 2 * c + 1); }
    if 2 * r + 1 < height { IndexInside(width, height, 2 * r + 1, 2 * c); }
    if 2 * c + 1 < width && 2 * r + 1 < height { IndexInside(width, height, 2 * r + 1, 2 * c + 1); }
  }

  /** Only the last column of an odd-width image (and the last row of an odd-height one) is cut. */
  lemma EdgeOfHalf(n: int, i: int)
    requires n >= 0 && 0 <= i < Half(n)
    ensures i != Half(n) - 1 ==> 2 * i + 1 < n
    ensures i == Half(n) - 1 ==> (2 * i + 1 < n <==> n % 2 == 0)
  {
  }

  /** The first `count` outputs of output row `r`. */
  function Row(source: seq<int>, width: int, height: int, r: int, count: int): (line: seq<int>)
    requires width >= 0 && height >= 0 && |source| >= width * height
    requires 0 <= r < Half(height) && 0 <= count <= Half(width)
    ensures |line| == count
    ensures forall c :: 0 <= c < count ==> line[c] == BlockMean(source, width, height, r, c)
  {
    if count == 0 then [] else Row(source, width, height, r, count - 1) + [BlockMean(source, width, height, r, count - 1)]
  }

  /** The first `rows` output rows, row after row. */
  function Image(source: seq<int>, width: int, height: int, rows: int): (image: seq<int>)
    requires width >= 0 && height >= 0 && |source| >= width * height
    requires 0 <= rows <= Half(height)
    ensures |image| == rows * Half(width)
  {
    if rows == 0 then []
    else
      var columns := Half(width);
      NextMultiple(rows - 1, columns);
      Image(source, width, height, rows - 1) + Row(source, width, height, rows - 1, columns)
  }

  lemma NextMultiple(k: int, n: int)
    ensures k * n + n == (k + 1) * n
  {
  }

  /** Output pixel (c, r) sits at `r * Half(width) + c` and is its block's mean. */
  lemma {:induction false} ImageAt(source: seq<int>, width: int, height: int, rows: int, r: int, c: int)
    requires width >= 0 && height >= 0 && |source| >= width * height
    requires 0 <= rows <= Half(height) && 0 <= r < rows && 0 <= c < Half(width)
    ensures 0 <= r * Half(width) + c < |Image(source, width, height, rows)|
    ensures Image(source, width, height, rows)[r * Half(width) + c] == BlockMean(source, width, height, r, c)
  {
    var w := Half(width);
    var prefix := Image(source, width, height, rows - 1);
    var line := Row(source, width, height, rows - 1, w);
    assert Image(source, width, height, rows) == prefix + line;
    if r < rows - 1 {
      ImageAt(source, width, height, rows - 1, r, c);
    } else {
      assert r * w + c == |prefix| + c;
      assert (prefix + line)[|prefix| + c] == line[c];
    }
  }

  // ---------------------------------------------------------------- the bitmap

  /** The grey level byte of a pixel (line 145): the pixel shifted right by 4, cast to `unsigned char`. */
  function GreyByte(v: int): (g: int)
    requires 0 <= v
    ensures 0 <= g < 256
    ensures v < 4096 ==> 16 * g <= v < 16 * g + 16
  {
    (v / 16) % 256
  }

  /** The grey RGBX bitmap of a pixel buffer: every pixel becomes its grey byte three times, then 0. */
  function GreyBitmap(data: seq<int>): (bytes: seq<int>)
    requires forall i :: 0 <= i < |data| ==> 0 <= data[i]
    ensures |bytes| == 4 * |data|
  {
    if data == [] then []
    else
      var g := GreyByte(data[|data| - 1]);
      GreyBitmap(data[..|data| - 1]) + [g, g, g, 0]
  }

  /** Byte `4i + k` of the grey bitmap is pixel `i`'s grey byte for k < 3 and 0 for k = 3. */
  lemma {:induction false} GreyBitmapAt(data: seq<int>, i: int)
    requires forall j :: 0 <= j < |data| ==> 0 <= data[j]
    requires 0 <= i < |data|
    ensures GreyBitmap(data)[4 * i] == GreyBitmap(data)[4 * i + 1] == GreyBitmap(data)[4 * i + 2] == GreyByte(data[i])
    ensures GreyBitmap(data)[4 * i + 3] == 0
  {
    var n := |data|;
    var front := data[..n - 1];
    assert GreyBitmap(data) == GreyBitmap(front) + [GreyByte(data[n - 1]), GreyByte(data[n - 1]), GreyByte(data[n - 1]), 0];
    if i < n - 1 {
      GreyBitmapAt(front, i);
      assert front[i] == data[i];
    }
  }

  // ---------------------------------------------------------------- display range

  /** The smallest of the values, and 4096 when that is smaller (`CalculateDisplayMinMax`'s start value). */
  function MinFrom(data: seq<int>): (m: int)
    ensures m <= 4096
    ensures (forall i :: 0 <= i < |data| ==> 0 <= data[i]) ==> m >= 0
    ensures forall i :: 0 <= i < |data| ==> m <= data[i]
    ensures m == 4096 || m in data
  {
    if data == [] then 4096
    else
      var rest := MinFrom(data[..|data| - 1]);
      if data[|data| - 1] < rest then data[|data| - 1] else rest
  }

  /** The largest of the values, and 0 when that is larger. */
  function MaxFrom(data: seq<int>): (m: int)
    ensures m >= 0
    ensures forall i :: 0 <= i < |data| ==> data[i] <= m
    ensures m == 0 || m in data
  {
    if data == [] then 0
    else
      var rest := MaxFrom(data[..|data| - 1]);
      if data[|data| - 1] > rest then data[|data| - 1] else rest
  }

  // ---------------------------------------------------------------- the palette

  /** A `QRgb`, channel by channel. */
  datatype Rgba = Rgba(red: int, green: int, blue: int, alpha: int)

  /** `qRgba` keeps the low 8 bits of every channel. */
  function QRgba(r: int, g: int, b: int, a: int): (p: Rgba)
    ensures 0 <= p.red < 256 && 0 <= p.green < 256 && 0 <= p.blue < 256 && 0 <= p.alpha < 256
    ensures 0 <= r < 256 && 0 <= g < 256 && 0 <= b < 256 && 0 <= a < 256 ==> p == Rgba(r, g, b, a)
  {
    Rgba(r % 256, g % 256, b % 256, a % 256)
  }

  /**
   * `QRGB_RainBowPalette`: blue to cyan, cyan to green, green to yellow,
   * yellow to red over 0..1023, pure red above.
   */
  function RainBow(v: int): (p: Rgba)
    ensures 0 <= p.red < 256 && 0 <= p.green < 256 && 0 <= p.blue < 256 && p.alpha == 0
    ensures v >= 1023 ==> p == Rgba(255, 0, 0, 0)
    ensures v >= 0 ==> (p.red == 255 || p.green == 255 || p.blue == 255)
    ensures v >= 0 ==> (p.red == 0 || p.green == 0 || p.blue == 0)
  {
    if v < 256 then QRgba(0, v, 255, 0)
    else if v < 512 then QRgba(0, 255, 511 - v, 0)
    else if v < 768 then QRgba(v - 512, 255, 0, 0)
    else if v < 1024 then QRgba(255, 1023 - v, 0, 0)
    else QRgba(255, 0, 0, 0)
  }

  function Distance(a: int, b: int): int
  {
    if a < b then b - a else a - b
  }

  /** The palette has no jumps: neighbouring levels in 0..1023 differ by at most one in every channel. */
  lemma RainBowContinuous(v: int)
    requires 0 <= v < 1023
    ensures Distance(RainBow(v).red, RainBow(v + 1).red) <= 1
    ensures Distance(RainBow(v).green, RainBow(v + 1).green) <= 1
    ensures Distance(RainBow(v).blue, RainBow(v + 1).blue) <= 1
  {
  }

  /** Line 223 as written: the palette gets `max` entries, yet lines 228-234 write entries 0..max. */
  function PaletteLengthAsWritten(minValue: int, maxValue: int): int
  {
    maxValue
  }

  /** Whether lines 228-234 write entry `i` of the palette. */
  predicate PaletteWrites(minValue: int, maxValue: int, i: int)
  {
    (0 <= i < minValue) || (minValue <= i <= maxValue)
  }

  /** As written, the last entry the loops write, `max`, lies one past the end of the palette. */
  lemma PaletteOverrunAsWritten(minValue: int, maxValue: int)
    requires 0 <= minValue <= maxValue
    ensures PaletteWrites(minValue, maxValue, maxValue)
    ensures maxValue >= PaletteLengthAsWritten(minValue, maxValue)
  {
  }

  /**
   * The rainbow level of palette entry `min + offset`, `offset * (1024 / span)`
   * with `span = max - min`, computed here exactly and truncated.
   */
  function Level(offset: int, span: int): int
    requires span > 0
  {
    offset * 1024 / span
  }

  /** The palette colour of entry `i` at or above the darkest pixel; `flatLevel` is the level when `minValue == maxValue`. */
  function EntryColour(i: int, minValue: int, maxValue: int, flatLevel: int): Rgba
  {
    RainBow(if maxValue > minValue then Level(i - minValue, maxValue - minValue) else flatLevel)
  }

  /** The levels run from 0 at the darkest pixel to 1024 at the brightest, without going down. */
  lemma LevelSpansRainbow(offset: int, other: int, span: int)
    requires span > 0 && 0 <= offset <= other <= span
    ensures Level(0, span) == 0 && Level(span, span) == 1024
    ensures 0 <= Level(offset, span) <= Level(other, span) <= 1024
  {
    assert offset * 1024 <= other * 1024 <= span * 1024;
    DivMonotone(offset * 1024, other * 1024, span);
    DivMonotone(other * 1024, span * 1024, span);
  }

  lemma DivMonotone(a: int, b: int, d: int)
    requires 0 <= a <= b && d > 0
    ensures a / d <= b / d
  {
    var q1, q2 := a / d, b / d;
    assert q1 * d <= a && b < (q2 + 1) * d;
    MulLessCancels(q1, q2 + 1, d);
  }

  lemma MulLessCancels(x: int, y: int, d: int)
    requires d > 0 && x * d < y * d
    ensures x < y
  {
    assert (y - x) * d > 0;
  }

  /** The palette length the loops need: every entry they write. */
  function PaletteLength(minValue: int, maxValue: int): (n: int)
    requires 0 <= minValue
    ensures forall i :: PaletteWrites(minValue, maxValue, i) ==> 0 <= i < n
    ensures minValue <= maxValue ==> n == maxValue + 1
  {
    if maxValue < minValue then minValue else maxValue + 1
  }

  /**
   * One output pixel of `DataSubSampling` (lines 397-465), branch by
   * branch: interior outputs average a 2×2 block, the last column of an
   * odd-width image a vertical pair, the last row of an odd-height image a
   * horizontal pair, and the odd × odd corner is copied.
   */
  method SubSampledPixel(source: seq<int>, width: int, height: int, r: int, c: int) returns (value: int)
    requires width >= 0 && height >= 0 && |source| >= width * height
    requires 0 <= r < Half(height) && 0 <= c < Half(width)
    ensures value == BlockMean(source, width, height, r, c)
  {
    var rows, columns := Half(height), Half(width);
    EdgeOfHalf(width, c);
    EdgeOfHalf(height, r);
    var y, x := 2 * r, 2 * c;
    if r != rows - 1 && c != columns - 1 {
      value := (At(source, width, height, y, x) + At(source, width, height, y, x + 1)
                + At(source, width, height, y + 1, x) + At(source, width, height, y + 1, x + 1)) / 4;
    } else if r != rows - 1 && c == columns - 1 {
      if width % 2 == 1 {
        value := (At(source, width, height, y, x) + At(source, width, height, y + 1, x)) / 2;
      } else {
        value := (At(source, width, height, y, x) + At(source, width, height, y, x + 1)
                  + At(source, width, height, y + 1, x) + At(source, width, height, y + 1, x + 1)) / 4;
      }
    } else if r == rows - 1 && c != columns - 1 {
      if height % 2 == 1 {
        value := (At(source, width, height, y, x) + At(source, width, height, y, x + 1)) / 2;
      } else {
        value := (At(source, width, height, y, x) + At(source, width, height, y, x + 1)
                  + At(source, width, height, y + 1, x) + At(source, width, height, y + 1, x + 1)) / 4;
      }
    } else {
      if width % 2 == 1 && height % 2 == 1 {
        value := At(source, width, height, y, x);
      } else if width % 2 == 1 && height % 2 != 1 {
        value := (At(source, width, height, y, x) + At(source, width, height, y + 1, x)) / 2;
      } else if width % 2 != 1 && height % 2 == 1 {
        value := (At(source, width, height, y, x) + At(source, width, height, y, x + 1)) / 2;
      } else {
        value := (At(source, width, height, y, x) + At(source, width, height, y, x + 1)
                  + At(source, width, height, y + 1, x) + At(source, width, height, y + 1, x + 1)) / 4;
      }
    }
  }

  /** A subsampled 16-bit image is a 16-bit image. */
  lemma {:induction false} ImagePixels16(source: seq<int>, width: int, height: int, rows: int)
    requires width >= 0 && height >= 0 && |source| >= width * height && Pixels16(source)
    requires 0 <= rows <= Half(height)
    ensures Pixels16(Image(source, width, height, rows))
  {
    if rows > 0 {
      ImagePixels16(source, width, height, rows - 1);
      var line := Row(source, width, height, rows - 1, Half(width));
      forall c | 0 <= c < |line|
        ensures 0 <= line[c] < 0x1_0000
      {
        BlockMeanRange(source, width, height, rows - 1, c);
      }
    }
  }

  /**
   * The loops of `DataSubSampling` (lines 378-473): the output is the image
   * halved in each dimension, rounding up, built row after row.
   */
  method SubSample(source: seq<int>, width: int, height: int) returns (data: seq<int>)
    requires width >= 0 && height >= 0 && |source| >= width * height
    ensures data == Image(source, width, height, Half(height))
  {
    var columns := if width % 2 == 0 then width / 2 else (width + 1) / 2;
    var rows := if height % 2 == 0 then height / 2 else (height + 1) / 2;
    data := [];
    var r := 0;
    while r < rows
      invariant 0 <= r <= rows
      invariant data == Image(source, width, height, r)
    {
      var line: seq<int> := [];
      var c := 0;
      while c < columns
        invariant 0 <= c <= columns
        invariant line == Row(source, width, height, r, c)
      {
        var value := SubSampledPixel(source, width, height, r, c);
        line := line + [value];
        c := c + 1;
      }
      data := data + line;
      r := r + 1;
    }
  }

  // ---------------------------------------------------------------- the viewer

  class Viewer {
    var xSizeSubSampling: int
    var ySizeSubSampling: int
    var subSamplingData: seq<int>
    var bitmap: seq<int>
    var minValueDisplayed: int
    var maxValueDisplayed: int
    var palette: seq<Rgba>

    /** The subsampled buffer matches its recorded size. */
    ghost predicate Valid()
      reads this
    {
      xSizeSubSampling >= 0 && ySizeSubSampling >= 0
      && |subSamplingData| == xSizeSubSampling * ySizeSubSampling
      && forall i :: 0 <= i < |subSamplingData| ==> 0 <= subSamplingData[i]
    }

    constructor ()
      ensures Valid() && subSamplingData == [] && bitmap == [] && palette == []
    {
      xSizeSubSampling := 0;
      ySizeSubSampling := 0;
      subSamplingData := [];
      bitmap := [];
      minValueDisplayed := 0;
      maxValueDisplayed := 0;
      palette := [];
    }

    /**
     * `DataSubSampling` (lines 366-473): the image halved in each
     * dimension, rounding up; interior outputs average a 2×2 block, the last
     * column of an odd-width image a vertical pair, the last row of an
     * odd-height image a horizontal pair, and the odd × odd corner is copied.
     */
    method DataSubSampling(source: seq<int>, width: int, height: int) returns (result: seq<int>)
      requires width >= 0 && height >= 0 && |source| >= width * height && Pixels16(source)
      modifies this
      ensures Valid() && Pixels16(result)
      ensures xSizeSubSampling == Half(width) && ySizeSubSampling == Half(height)
      ensures result == subSamplingData == Image(source, width, height, Half(height))
      ensures bitmap == old(bitmap) && palette == old(palette)
      ensures minValueDisplayed == old(minValueDisplayed) && maxValueDisplayed == old(maxValueDisplayed)
    {
      result := SubSample(source, width, height);
      xSizeSubSampling, ySizeSubSampling := Half(width), Half(height);
      subSamplingData := result;
      ImagePixels16(source, width, height, Half(height));
    }

    /**
     * The grey path of `CreateBitmap` (lines 128-151): the bitmap is resized
     * when its expected length differs from the buffer length, which is the
     * case unless the buffer is empty, and then every pixel becomes its grey
     * byte in R, G and B with 0 in the fourth byte.
     */
    method CreateGreyBitmap()
      requires Valid()
      modifies this
      ensures Valid() && subSamplingData == old(subSamplingData) && palette == old(palette)
      ensures |subSamplingData| > 0 ==> bitmap == GreyBitmap(subSamplingData)
      ensures |subSamplingData| == 0 ==> bitmap == old(bitmap)
      ensures forall i :: 0 <= i < |subSamplingData| ==>
                bitmap[4 * i] == bitmap[4 * i + 1] == bitmap[4 * i + 2] == GreyByte(subSamplingData[i]) && bitmap[4 * i + 3] == 0
      ensures xSizeSubSampling == old(xSizeSubSampling) && ySizeSubSampling == old(ySizeSubSampling)
      ensures minValueDisplayed == old(minValueDisplayed) && maxValueDisplayed == old(maxValueDisplayed)
    {
      var length := xSizeSubSampling * ySizeSubSampling;
      if 4 * length != |subSamplingData| {
        var bytes: seq<int> := [];
        var index := 0;
        while index < length
          invariant 0 <= index <= length
          invariant bytes == GreyBitmap(subSamplingData[..index])
        {
          var g := GreyByte(subSamplingData[index]);
          assert subSamplingData[..index + 1][..index] == subSamplingData[..index];
          bytes := bytes + [g, g, g, 0];
          index := index + 1;
        }
        assert subSamplingData[..length] == subSamplingData;
        bitmap := bytes;
      }
      forall i | 0 <= i < |subSamplingData|
        ensures bitmap[4 * i] == bitmap[4 * i + 1] == bitmap[4 * i + 2] == GreyByte(subSamplingData[i]) && bitmap[4 * i + 3] == 0
      {
        GreyBitmapAt(subSamplingData, i);
      }
    }

    /** `CalculateDisplayMinMax` (lines 175-194): the darkest and brightest displayed pixels. */
    method CalculateDisplayMinMax()
      requires Valid()
      modifies this
      ensures minValueDisplayed == MinFrom(subSamplingData) && maxValueDisplayed == MaxFrom(subSamplingData)
      ensures Valid() && subSamplingData == old(subSamplingData) && bitmap == old(bitmap) && palette == old(palette)
      ensures xSizeSubSampling == old(xSizeSubSampling) && ySizeSubSampling == old(ySizeSubSampling)
    {
      var length := xSizeSubSampling * ySizeSubSampling;
      var data := subSamplingData;
      var lowest, highest := 4096, 0;
      var index := 0;
      while index < length
        invariant 0 <= index <= length
        invariant lowest == MinFrom(data[..index]) && highest == MaxFrom(data[..index])
      {
        var value := data[index];
        assert data[..index + 1][..index] == data[..index];
        if value < lowest {
          lowest := value;
        }
        if value > highest {
          highest := value;
        }
        index := index + 1;
      }
      assert data[..length] == data;
      minValueDisplayed, maxValueDisplayed := lowest, highest;
    }

    /**
     * `CreateCurrentPalette` (lines 216-236), with the palette sized to every
     * entry its loops write: entries below the darkest pixel get the first
     * rainbow colour, the others the colour of their scaled level. When the
     * darkest and brightest pixels are equal the scale divides by zero;
     * `flatLevel` is the level the one entry then gets.
     */
    method CreateCurrentPalette(flatLevel: int)
      requires Valid()
      modifies this
      ensures Valid() && subSamplingData == old(subSamplingData) && bitmap == old(bitmap)
      ensures minValueDisplayed == MinFrom(subSamplingData) && maxValueDisplayed == MaxFrom(subSamplingData)
      ensures |palette| == PaletteLength(minValueDisplayed, maxValueDisplayed)
      ensures forall i :: 0 <= i < |palette| && i < minValueDisplayed ==> palette[i] == RainBow(0)
      ensures forall i :: minValueDisplayed <= i < |palette| ==>
        palette[i] == EntryColour(i, minValueDisplayed, maxValueDisplayed, flatLevel)
      ensures forall i :: 0 <= i < |subSamplingData| ==> 0 <= subSamplingData[i] < |palette|
      ensures xSizeSubSampling == old(xSizeSubSampling) && ySizeSubSampling == old(ySizeSubSampling)
    {
      CalculateDisplayMinMax();
      var length := PaletteLength(minValueDisplayed, maxValueDisplayed);
      var entries: seq<Rgba> := [];
      var index := 0;
      while index < minValueDisplayed
        invariant 0 <= index <= minValueDisplayed
        invariant |entries| == index
        invariant forall i :: 0 <= i < index ==> entries[i] == RainBow(0)
      {
        entries := entries + [RainBow(0)];
        index := index + 1;
      }
      while index <= maxValueDisplayed
        invariant minValueDisplayed <= index && |entries| == index
        invariant index <= maxValueDisplayed + 1 || index == minValueDisplayed
        invariant forall i :: 0 <= i < minValueDisplayed ==> entries[i] == RainBow(0)
        invariant forall i :: minValueDisplayed <= i < index ==>
          entries[i] == EntryColour(i, minValueDisplayed, maxValueDisplayed, flatLevel)
      {
        entries := entries + [EntryColour(index, minValueDisplayed, maxValueDisplayed, flatLevel)];
        index := index + 1;
      }
      assert |entries| == length;
      palette := entries;
    }
  }
}
