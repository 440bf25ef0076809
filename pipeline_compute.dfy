/*
 * PipelineCompute: the integer passes of the processing pipeline over the
 * raw 16-bit buffer (bias, saturation, inactive-band count, viewing-angle
 * mask and the centre crop used without linearisation) and the image
 * configuration it keeps for the current capture.
 */
module PipelineCompute {
  import C = Common
  import IC = ImageConfig
  import DC = DefectCorrector

  const Word16: int := 0x1_0000

  /** The `(uint16_t)` cast of a value. */
  function ToUnsigned16(v: int): (u: int)
    ensures 0 <= u < Word16
    ensures DC.Int16(v) ==> u == (if v < 0 then v + Word16 else v)
  {
    v % Word16
  }

  /** Storing into an `int16`: the value modulo 2^16, as a signed number. */
  function Wrap16(v: int): (w: int)
    ensures DC.Int16(w)
    ensures DC.Int16(v) ==> w == v
  {
    (v + 0x8000) % Word16 - 0x8000
  }

  /** Adding back what was subtracted before the wrap gives the original 16-bit value. */
  lemma WrapUndo(v: int, b: int)
    requires DC.Int16(v)
    ensures Wrap16(Wrap16(v - b) + b) == v
  {
    var t := v - b + 0x8000;
    var q := t / Word16;
    var n := Wrap16(v - b) + b + 0x8000;
    assert n == Word16 * (-q) + (v + 0x8000);
    C.DivUnique(n, Word16, -q, v + 0x8000);
  }

  // ---------------------------------------------------------------- sizes

  /** The side of the square calibrated picture for a radius. */
  function Side(radius: int): int
  {
    2 * radius + 1
  }

  /** `_GetCalibratedDataSize`: the pixel count of the square of side 2r+1. */
  function CalibratedDataSize(radius: int): (n: int)
    ensures n == Side(radius) * Side(radius)
    ensures n >= 1
  {
    var s := Side(radius);
    SquarePositive(s);
    s * s
  }

  lemma SquarePositive(s: int)
    requires s != 0
    ensures s * s >= 1
  {
    if s > 0 {
      C.MulAtLeast(s, s);
    } else {
      C.MulAtLeast(-s, -s);
    }
  }

  /** A cell of a row-major picture of the given row length. */
  function Cell(row: int, col: int, length: int): int
  {
    row * length + col
  }

  lemma CellSplit(row: int, col: int, length: int)
    requires length > 0 && 0 <= col < length
    ensures Cell(row, col, length) / length == row && Cell(row, col, length) % length == col
  {
    C.DivUnique(Cell(row, col, length), length, row, col);
  }

  lemma CellInside(row: int, col: int, length: int, rows: int)
    requires 0 <= row < rows && 0 <= col < length
    ensures 0 <= Cell(row, col, length) < rows * length
  {
    DC.IndexInside(col, row, length, rows);
  }

  // ---------------------------------------------------------------- bias

  /** The buffer after subtracting `bias` from its first `n` pixels, in 16-bit arithmetic. */
  function Biased(s: seq<int>, n: int, bias: int): seq<int>
  {
    seq(|s|, i requires 0 <= i < |s| => if i < n then Wrap16(s[i] - bias) else s[i])
  }

  /** Subtracting a bias and then its opposite restores every 16-bit pixel. */
  lemma BiasUndo(s: seq<int>, n: int, bias: int)
    requires DC.AllInt16(s)
    ensures Biased(Biased(s, n, bias), n, -bias) == s
  {
    forall i | 0 <= i < |s| && i < n
      ensures Biased(Biased(s, n, bias), n, -bias)[i] == s[i]
    {
      WrapUndo(s[i], bias);
    }
  }

  /** Where no pixel wraps, every pixel moves by the same amount, so differences between pixels are kept. */
  lemma BiasKeepsDifferences(s: seq<int>, n: int, bias: int, i: int, j: int)
    requires 0 <= i < |s| && 0 <= j < |s| && i < n && j < n
    requires DC.Int16(s[i] - bias) && DC.Int16(s[j] - bias)
    ensures Biased(s, n, bias)[i] - Biased(s, n, bias)[j] == s[i] - s[j]
  {
  }

  /**
   * `ApplyBias` as compiled (`ONE_LOOP_1` is defined, so its first loop runs):
   * the bias subtracted from every one of the first `size` pixels. The second
   * loop only feeds the unused `fullSensor` statistic.
   */
  method ApplyBias(raw: array<int>, size: int, bias: int)
    requires size <= raw.Length
    modifies raw
    ensures raw[..] == Biased(old(raw[..]), size, bias)
  {
    var index := 0;
    while index < size
      invariant 0 <= index <= (if size > 0 then size else 0)
      invariant forall i :: 0 <= i < index ==> raw[i] == Wrap16(old(raw[i]) - bias)
      invariant forall i :: index <= i < raw.Length ==> raw[i] == old(raw[i])
    {
      raw[index] := Wrap16(raw[index] - bias);
      index := index + 1;
    }
    assert forall i :: 0 <= i < raw.Length ==> raw[..][i] == Biased(old(raw[..]), size, bias)[i];
  }

  // ---------------------------------------------------------------- saturation

  /**
   * The saturation check of `_ComputeRawData`: the flag is set exactly when
   * some pixel, read unsigned, reaches the saturation value, and `pixelMax`
   * is the largest unsigned pixel (0 for no pixel).
   */
  method Saturation(raw: array<int>, nbPixels: int, saturationValue: int) returns (flag: bool, pixelMax: int)
    requires nbPixels <= raw.Length
    ensures flag <==> exists i :: 0 <= i < nbPixels && ToUnsigned16(raw[i]) >= saturationValue
    ensures forall i :: 0 <= i < nbPixels ==> ToUnsigned16(raw[i]) <= pixelMax
    ensures pixelMax == 0 || exists i :: 0 <= i < nbPixels && ToUnsigned16(raw[i]) == pixelMax
    ensures 0 <= pixelMax < Word16
  {
    flag := false;
    pixelMax := 0;
    var i := 0;
    while i < nbPixels
      invariant 0 <= i <= (if nbPixels > 0 then nbPixels else 0)
      invariant flag <==> exists k :: 0 <= k < i && ToUnsigned16(raw[k]) >= saturationValue
      invariant forall k :: 0 <= k < i ==> ToUnsigned16(raw[k]) <= pixelMax
      invariant pixelMax == 0 || exists k :: 0 <= k < i && ToUnsigned16(raw[k]) == pixelMax
      invariant 0 <= pixelMax < Word16
    {
      if ToUnsigned16(raw[i]) >= saturationValue {
        flag := true;
      }
      if ToUnsigned16(raw[i]) > pixelMax {
        pixelMax := ToUnsigned16(raw[i]);
      }
      i := i + 1;
    }
  }

  // ---------------------------------------------------------------- viewing angle

  /** Whether cell (row, col) of the calibrated square lies outside the disc of the radius. */
  predicate Outside(radius: int, row: int, col: int)
  {
    (col - radius) * (col - radius) + (row - radius) * (row - radius) > radius * radius
  }

  /** Whether buffer index i is a cell of the (2r+1)-square outside the disc. */
  predicate Masked(radius: int, i: int)
  {
    var length := Side(radius);
    length > 0 && 0 <= i < length * length && Outside(radius, i / length, i % length)
  }

  /** The calibrated square with every cell outside the disc set to 0. */
  function Restricted(s: seq<int>, radius: int): seq<int>
  {
    seq(|s|, i requires 0 <= i < |s| => if Masked(radius, i) then 0 else s[i])
  }

  lemma MaskedCell(radius: int, row: int, col: int)
    requires 0 <= row < Side(radius) && 0 <= col < Side(radius)
    ensures Masked(radius, Cell(row, col, Side(radius))) == Outside(radius, row, col)
  {
    CellInside(row, col, Side(radius), Side(radius));
    CellSplit(row, col, Side(radius));
  }

  /** Masking twice is masking once. */
  lemma RestrictIdempotent(s: seq<int>, radius: int)
    ensures Restricted(Restricted(s, radius), radius) == Restricted(s, radius)
  {
  }

  /** The centre cell is kept, and for a positive radius the corner cell is zeroed. */
  lemma RestrictCentreAndCorner(s: seq<int>, radius: int)
    requires radius >= 0 && |s| >= Side(radius) * Side(radius)
    ensures Restricted(s, radius)[Cell(radius, radius, Side(radius))] == s[Cell(radius, radius, Side(radius))]
    ensures radius > 0 ==> Restricted(s, radius)[0] == 0
  {
    var length := Side(radius);
    MaskedCell(radius, radius, radius);
    CellInside(radius, radius, length, length);
    assert !Outside(radius, radius, radius);
    if radius > 0 {
      MaskedCell(radius, 0, 0);
      C.MulAtLeast(radius, radius);
      assert Outside(radius, 0, 0);
      assert Cell(0, 0, length) == 0;
    }
  }

  /**
   * `RestrictToViewingAngle` (integer comparison, radius taken as exact):
   * the cells of the (2r+1)-square outside the disc are zeroed, all others kept.
   */
  method RestrictToViewingAngle(radius: int, data: array<int>)
    requires Side(radius) > 0 ==> Side(radius) * Side(radius) <= data.Length
    modifies data
    ensures data[..] == Restricted(old(data[..]), radius)
  {
    var length := Side(radius);
    var count := 0;
    var row := 0;
    while row < length
      invariant 0 <= row && (row <= length || length <= 0)
      invariant count == row * length
      invariant forall i :: 0 <= i < data.Length ==> data[i] == (if i < count && Masked(radius, i) then 0 else old(data[i]))
    {
      CellInside(row, 0, length, length);
      RestrictRow(radius, data, row, count);
      count := count + length;
      row := row + 1;
      assert count == row * length;
    }
    if length > 0 {
      assert count == length * length;
    }
    assert forall i :: 0 <= i < data.Length ==> data[..][i] == Restricted(old(data[..]), radius)[i];
  }

  /** The inner loop of `RestrictToViewingAngle`: one row of the square. */
  method RestrictRow(radius: int, data: array<int>, row: int, start: int)
    requires Side(radius) > 0 && Side(radius) * Side(radius) <= data.Length
    requires 0 <= row < Side(radius) && start == Cell(row, 0, Side(radius))
    modifies data
    ensures forall i :: 0 <= i < data.Length ==>
      data[i] == (if start <= i < start + Side(radius) && Masked(radius, i) then 0 else old(data[i]))
  {
    var length := Side(radius);
    var col := 0;
    while col < length
      invariant 0 <= col <= length
      invariant forall i :: 0 <= i < data.Length ==>
        data[i] == (if start <= i < start + col && Masked(radius, i) then 0 else old(data[i]))
    {
      CellInside(row, col, length, length);
      MaskedCell(radius, row, col);
      if Outside(radius, row, col) {
        data[start + col] := 0;
      }
      col := col + 1;
    }
  }

  // ---------------------------------------------------------------- centre crop

  /** The (2r+1)-square fits in the captured image. */
  predicate CropFits(length: int, width: int, height: int)
  {
    0 < length && length <= height && length <= width
  }

  /** The input index the crop copies into output index i. */
  function CropSource(i: int, length: int, width: int, height: int): (j: int)
    requires CropFits(length, width, height) && 0 <= i < length * length
    ensures 0 <= j < width * height
  {
    CropIndex(i, length, width, height);
    Cell(i / length + (height - length) / 2, i % length + (width - length) / 2, width)
  }

  /**
   * The output buffer after the crop of the no-linearisation path: when the
   * square fits, its cells hold the centred square of the input; otherwise
   * (and past the square) the buffer is unchanged.
   */
  function Cropped(output: seq<int>, input: seq<int>, width: int, height: int, radius: int): seq<int>
  {
    var length := Side(radius);
    if !CropFits(length, width, height) || width * height > |input| then
      output
    else
      seq(|output|, i requires 0 <= i < |output| =>
        if i < length * length then input[CropSource(i, length, width, height)] else output[i])
  }

  /** Cell (row, col) of the crop is pixel (row + top margin, col + left margin) of the input, and the margins are centred. */
  lemma CropCell(output: seq<int>, input: seq<int>, width: int, height: int, radius: int, row: int, col: int)
    requires CropFits(Side(radius), width, height)
    requires width * height <= |input| && Side(radius) * Side(radius) <= |output|
    requires 0 <= row < Side(radius) && 0 <= col < Side(radius)
    ensures var length := Side(radius);
            var top := (height - length) / 2;
            var left := (width - length) / 2;
            && 0 <= Cell(row, col, length) < |output|
            && 0 <= Cell(row + top, col + left, width) < |input|
            && Cropped(output, input, width, height, radius)[Cell(row, col, length)] == input[Cell(row + top, col + left, width)]
            && (2 * top + length == height || 2 * top + length + 1 == height)
            && (2 * left + length == width || 2 * left + length + 1 == width)
  {
    var length := Side(radius);
    CellInside(row, col, length, length);
    CellSplit(row, col, length);
    CellInside(row + (height - length) / 2, col + (width - length) / 2, width, height);
  }

  /** The no-linearisation branch of `_ComputeKLibData`: a centred square copied line by line. */
  method CropCentre(input: array<int>, width: int, height: int, radius: int, output: array<int>)
    requires input != output
    requires CropFits(Side(radius), width, height) ==>
      width * height <= input.Length && Side(radius) * Side(radius) <= output.Length
    modifies output
    ensures output[..] == Cropped(old(output[..]), input[..], width, height, radius)
  {
    var length := Side(radius);
    if length <= height && length <= width {
      if length <= 0 {
        return;
      }
      CopySquare(input, width, height, length, output);
      CroppedMeans(old(output[..]), input[..], width, height, radius, output[..]);
    }
  }

  /** The loop of the crop over the lines of the square. */
  method CopySquare(input: array<int>, width: int, height: int, length: int, output: array<int>)
    requires input != output && CropFits(length, width, height)
    requires width * height <= input.Length && length * length <= output.Length
    modifies output
    ensures forall i :: 0 <= i < output.Length ==>
      output[i] == (if i < length * length then input[CropSource(i, length, width, height)] else old(output[i]))
  {
    ghost var image := input[..];
    var top := (height - length) / 2;
    var left := (width - length) / 2;
    var line := 0;
    var done := 0;
    while line < length
      invariant 0 <= line <= length && 0 <= done <= output.Length
      invariant output[..done] == SquareLines(image, length, width, height, line)
      invariant forall i :: done <= i < output.Length ==> output[i] == old(output[i])
    {
      var outputOffset := done;
      var inputOffset := left + (line + top) * width;
      LineOffsets(line, length, width, height);
      ghost var before := output[..];
      CopyLine(input, output, inputOffset, outputOffset, length);
      LineCopied(before, output[..], image, length, width, height, line, done);
      line := line + 1;
      done := done + length;
    }
    SquareCopied(output[..], old(output[..]), image, length, width, height);
  }

  /** Copying line `line` after the lines before it extends the square by that line. */
  lemma LineCopied(before: seq<int>, after: seq<int>, input: seq<int>, length: int, width: int, height: int, line: int, done: int)
    requires CropFits(length, width, height) && width * height <= |input| && 0 <= line < length
    requires |before| == |after| && 0 <= done && done + length <= |after|
    requires before[..done] == SquareLines(input, length, width, height, line)
    requires var inputOffset := (width - length) / 2 + (line + (height - length) / 2) * width;
      0 <= inputOffset && inputOffset + length <= |input|
      && forall i :: 0 <= i < |after| ==>
        after[i] == (if done <= i < done + length then input[inputOffset + (i - done)] else before[i])
    ensures after[..done + length] == SquareLines(input, length, width, height, line + 1)
    ensures forall i :: done + length <= i < |after| ==> after[i] == before[i]
  {
    LineOffsets(line, length, width, height);
    var inputOffset := (width - length) / 2 + (line + (height - length) / 2) * width;
    assert after[..done + length] == before[..done] + input[inputOffset..inputOffset + length];
  }

  /** Once every line is copied the buffer holds the crop, and nothing past it changed. */
  lemma SquareCopied(after: seq<int>, before: seq<int>, input: seq<int>, length: int, width: int, height: int)
    requires CropFits(length, width, height) && width * height <= |input|
    requires |after| == |before| && length * length <= |after|
    requires after[..length * length] == SquareLines(input, length, width, height, length)
    requires forall i :: length * length <= i < |after| ==> after[i] == before[i]
    ensures forall i :: 0 <= i < |after| ==>
      after[i] == (if i < length * length then input[CropSource(i, length, width, height)] else before[i])
  {
    forall i | 0 <= i < length * length
      ensures after[i] == input[CropSource(i, length, width, height)]
    {
      assert after[i] == after[..length * length][i];
      SquareLinesAt(input, length, width, height, length, i);
    }
  }

  /** Where line `line` of the square starts in the input, and that it fits in the input and the output. */
  lemma LineOffsets(line: int, length: int, width: int, height: int)
    requires CropFits(length, width, height) && 0 <= line < length
    ensures 0 <= line * length && line * length + length == (line + 1) * length <= length * length
    ensures var inputOffset := (width - length) / 2 + (line + (height - length) / 2) * width;
      0 <= inputOffset && inputOffset + length <= width * height
  {
    var top, left := (height - length) / 2, (width - length) / 2;
    assert 0 <= top && top + length <= height && 0 <= left && left + length <= width;
    MulUpTo(line, length, length);
    MulUpTo(line + top, height, width);
  }

  /** Row `row` of a row-major buffer with rows of `width` ends within `rows` rows. */
  lemma MulUpTo(row: int, rows: int, width: int)
    requires 0 <= row < rows && 0 <= width
    ensures 0 <= row * width && row * width + width == (row + 1) * width <= rows * width
  {
  }

  /** The first `lines` lines of the centred square, one after the other. */
  function SquareLines(input: seq<int>, length: int, width: int, height: int, lines: int): (square: seq<int>)
    requires CropFits(length, width, height) && width * height <= |input| && 0 <= lines <= length
    ensures |square| == lines * length <= length * length
  {
    if lines == 0 then []
    else
      LineOffsets(lines - 1, length, width, height);
      var offset := (width - length) / 2 + (lines - 1 + (height - length) / 2) * width;
      SquareLines(input, length, width, height, lines - 1) + input[offset..offset + length]
  }

  /** Pixel i of the square lines is the crop's source pixel for output index i. */
  lemma {:induction false} SquareLinesAt(input: seq<int>, length: int, width: int, height: int, lines: int, i: int)
    requires CropFits(length, width, height) && width * height <= |input| && 0 <= lines <= length
    requires 0 <= i < lines * length
    ensures SquareLines(input, length, width, height, lines)[i] == input[CropSource(i, length, width, height)]
  {
    LineOffsets(lines - 1, length, width, height);
    var prefix := SquareLines(input, length, width, height, lines - 1);
    if i < (lines - 1) * length {
      SquareLinesAt(input, length, width, height, lines - 1, i);
    } else {
      CropSourceInLine(i, lines - 1, length, width, height);
    }
  }

  lemma CropSourceInLine(i: int, line: int, length: int, width: int, height: int)
    requires CropFits(length, width, height) && 0 <= line < length
    requires line * length <= i < line * length + length && line * length + length <= length * length
    ensures CropSource(i, length, width, height)
         == (width - length) / 2 + (line + (height - length) / 2) * width + (i - line * length)
  {
    CellSplit(line, i - line * length, length);
    assert i == Cell(line, i - line * length, length);
  }

  lemma CroppedMeans(before: seq<int>, input: seq<int>, width: int, height: int, radius: int, after: seq<int>)
    requires CropFits(Side(radius), width, height) && width * height <= |input|
    requires |after| == |before|
    requires forall i :: 0 <= i < |after| ==>
      after[i] == (if i < Side(radius) * Side(radius) then input[CropSource(i, Side(radius), width, height)] else before[i])
    ensures after == Cropped(before, input, width, height, radius)
  {
  }

  /** One line of the crop (`memcpy` of `length` pixels). */
  method CopyLine(input: array<int>, output: array<int>, inputOffset: int, outputOffset: int, length: int)
    requires input != output && 0 <= length
    requires 0 <= inputOffset && inputOffset + length <= input.Length
    requires 0 <= outputOffset && outputOffset + length <= output.Length
    modifies output
    ensures forall i :: 0 <= i < output.Length ==>
      output[i] == (if outputOffset <= i < outputOffset + length then input[inputOffset + (i - outputOffset)] else old(output[i]))
  {
    forall i | outputOffset <= i < outputOffset + length {
      output[i] := input[inputOffset + (i - outputOffset)];
    }
  }

  lemma CropIndex(i: int, length: int, width: int, height: int)
    requires CropFits(length, width, height) && 0 <= i < length * length
    ensures 0 <= Cell(i / length + (height - length) / 2, i % length + (width - length) / 2, width) < width * height
  {
    var row, col := i / length, i % length;
    assert i == Cell(row, col, length);
    if row >= length {
      C.MulAtLeast(row - length + 1, length);
      assert false;
    }
    CellInside(row + (height - length) / 2, col + (width - length) / 2, width, height);
  }

  // ---------------------------------------------------------------- inactive bands

  /** Whether pixel (x, y) is in the top, left or right inactive band (the `else if` chain). */
  predicate InBands(s: IC.Settings, x: int, y: int)
  {
    IC.Inside(s.top, x, y) || IC.Inside(s.left, x, y) || IC.Inside(s.right, x, y)
  }

  /** The band pixels above `threshold` among the first `n` pixels of line `line`. */
  function LineCount(raw: seq<int>, s: IC.Settings, width: int, threshold: int, line: int, n: int): (c: int)
    requires 0 <= line && 0 <= n <= width && Cell(line, width, width) <= |raw|
    ensures 0 <= c <= n
    decreases n
  {
    if n == 0 then
      0
    else
      LineCount(raw, s, width, threshold, line, n - 1)
      + (if InBands(s, n - 1, line) && raw[Cell(line, n - 1, width)] > threshold then 1 else 0)
  }

  /** The band pixels above `threshold` in the first `lines` lines. */
  function BandsCount(raw: seq<int>, s: IC.Settings, width: int, threshold: int, lines: int): (c: int)
    requires 0 <= lines && 0 <= width && lines * width <= |raw|
    ensures 0 <= c
    decreases lines
  {
    if lines == 0 then 0
    else
      PreviousLine(lines, width);
      BandsCount(raw, s, width, threshold, lines - 1) + LineCount(raw, s, width, threshold, lines - 1, width)
  }

  lemma PreviousLine(lines: int, width: int)
    requires lines >= 1 && width >= 0
    ensures Cell(lines - 1, width, width) == lines * width && (lines - 1) * width <= lines * width
  {
  }

  /** With no pixel above the threshold nothing is counted. */
  lemma {:induction false} BandsCountQuiet(raw: seq<int>, s: IC.Settings, width: int, threshold: int, lines: int)
    requires 0 <= lines && 0 <= width && lines * width <= |raw|
    requires forall i :: 0 <= i < |raw| ==> raw[i] <= threshold
    ensures BandsCount(raw, s, width, threshold, lines) == 0
    decreases lines
  {
    if lines > 0 {
      PreviousLine(lines, width);
      BandsCountQuiet(raw, s, width, threshold, lines - 1);
      LineQuiet(raw, s, width, threshold, lines - 1, width);
    }
  }

  lemma {:induction false} LineQuiet(raw: seq<int>, s: IC.Settings, width: int, threshold: int, line: int, n: int)
    requires 0 <= line && 0 <= n <= width && Cell(line, width, width) <= |raw|
    requires forall i :: 0 <= i < |raw| ==> raw[i] <= threshold
    ensures LineCount(raw, s, width, threshold, line, n) == 0
    decreases n
  {
    if n > 0 {
      LineQuiet(raw, s, width, threshold, line, n - 1);
    }
  }

  /**
   * For a symmetric layout, a pixel above the bottom of the active area is
   * counted exactly when it lies outside the active area; the rows below it
   * are never counted.
   */
  lemma BandsMeanOutsideActive(image: IC.Area, active: IC.Area, cw: int, ch: int, central: int, x: int, y: int)
    requires IC.Symmetric(image, active) && 0 <= x < image.width && 0 <= y
    ensures var s := IC.Derive(image, active, cw, ch, central);
            InBands(s, x, y) <==> y < active.vOffset + active.height && !IC.Inside(active, x, y)
  {
    if y < active.vOffset + active.height {
      IC.BandsPartition(image, active, x, y);
    }
  }

  // ---------------------------------------------------------------- image configuration

  /** The fields of an `ImageConfiguration` that `_SetImageConfiguration` sets. */
  datatype Base = Base(image: IC.Area, active: IC.Area, cornerWidth: int, cornerHeight: int,
                       centralHOffset: int, centralVOffset: int)

  function BaseOf(c: IC.ImageConfiguration): Base
    reads c
  {
    Base(c.image, c.active, c.biasCornerWidth, c.biasCornerHeight, c.centralHOffset, c.centralVOffset)
  }

  /** The default layout of the `ImageConfiguration` constructor. */
  const DefaultBase: Base := Base(IC.Area(0, 0, 3584, 2528), IC.Area(112, 32, 3360, 2496), 32, 70, 492, 32)

  /** A capture of the full image of a configuration, without offset. */
  predicate Typical(config: Base, size: DC.ImageSize)
  {
    size.width == config.image.width && size.height == config.image.height && size.offsetX == 0 && size.offsetY == 0
  }

  /** A reference corner dimension kept when two corners fit in the limit, 0 otherwise. */
  function CornerFor(reference: int, limit: int): int
  {
    if reference * 2 > limit then 0 else reference
  }

  /**
   * `_SetImageConfiguration` as written: the typical test compares the size
   * with the current configuration, and the corner height with the current
   * corner height instead of the image height.
   */
  function NextBaseAsWritten(current: Base, reference: Base, size: DC.ImageSize): Base
  {
    if Typical(current, size) then reference
    else Base(IC.Area(0, 0, size.width, size.height), IC.Area(0, 0, size.width, size.height),
              CornerFor(reference.cornerWidth, size.width), CornerFor(reference.cornerHeight, current.cornerHeight), 0, 0)
  }

  /** `_SetImageConfiguration` as intended: both tests against the reference layout and the new image. */
  function NextBase(reference: Base, size: DC.ImageSize): Base
  {
    if Typical(reference, size) then reference
    else Base(IC.Area(0, 0, size.width, size.height), IC.Area(0, 0, size.width, size.height),
              CornerFor(reference.cornerWidth, size.width), CornerFor(reference.cornerHeight, size.height), 0, 0)
  }

  /** A non-typical capture makes the whole image active, with zero offsets, and clears the central offsets. */
  lemma NonTypicalWholeActive(reference: Base, size: DC.ImageSize)
    requires !Typical(reference, size)
    ensures var b := NextBase(reference, size);
            b.image == b.active == IC.Area(0, 0, size.width, size.height)
            && b.centralHOffset == 0 && b.centralVOffset == 0
  {
  }

  /** A typical capture restores the reference layout. */
  lemma TypicalRestoresReference(reference: Base, size: DC.ImageSize)
    requires Typical(reference, size)
    ensures NextBase(reference, size) == reference
  {
  }

  /** If the reference corners fit its active area, the new corners fit the new active area. */
  lemma NextCornersFit(reference: Base, size: DC.ImageSize)
    requires 0 <= reference.cornerWidth && 2 * reference.cornerWidth <= reference.active.width
    requires 0 <= reference.cornerHeight && 2 * reference.cornerHeight <= reference.active.height
    requires 0 <= size.width && 0 <= size.height
    ensures var b := NextBase(reference, size);
            0 <= b.cornerWidth && 2 * b.cornerWidth <= b.active.width
            && 0 <= b.cornerHeight && 2 * b.cornerHeight <= b.active.height
  {
  }

  /** As written, a 1000x1000 capture loses the 70-pixel bias corners although two of them fit. */
  lemma CornerHeightDroppedAsWritten()
    ensures NextBaseAsWritten(DefaultBase, DefaultBase, DC.ImageSize(1000, 1000, 0, 0)).cornerHeight == 0
    ensures NextBase(DefaultBase, DC.ImageSize(1000, 1000, 0, 0)).cornerHeight == 70
  {
  }

  /**
   * As written, a non-typical capture drops the bias corner height whenever the
   * current corner height is below twice the reference one, which holds for the
   * only two values it takes: the reference height and 0.
   */
  lemma CornerHeightNeverKeptAsWritten(current: Base, reference: Base, size: DC.ImageSize)
    requires reference.cornerHeight > 0 && current.cornerHeight < 2 * reference.cornerHeight
    requires !Typical(current, size)
    ensures NextBaseAsWritten(current, reference, size).cornerHeight == 0
    ensures NextBaseAsWritten(current, reference, size) == NextBase(reference, size).(cornerHeight := 0)
            || Typical(reference, size)
  {
  }

  /**
   * As written, a second 100x100 capture is taken as typical and restores the
   * 3584x2528 reference layout; the intended version keeps the 100x100 layout.
   */
  lemma RepeatedSizeRestoresReferenceAsWritten()
    ensures var size := DC.ImageSize(100, 100, 0, 0);
            var first := NextBaseAsWritten(DefaultBase, DefaultBase, size);
            first.image.width == 100
            && NextBaseAsWritten(first, DefaultBase, size).image.width == 3584
            && NextBase(DefaultBase, size).image.width == 100
  {
  }

  /** The pipeline's state: the current and reference layouts and the defect corrector's copy. */
  class Compute {
    const config: IC.ImageConfiguration
    const reference: IC.ImageConfiguration
    const corrector: DC.Corrector

    ghost predicate Valid()
      reads this, config, reference, corrector
    {
      config != reference && config.Consistent() && reference.Consistent()
      && corrector.geometry == DC.Geometry(config.image.width, config.image.height)
    }

    /** Both layouts start as the default one. */
    constructor ()
      ensures Valid() && fresh(config) && fresh(reference) && fresh(corrector)
      ensures BaseOf(config) == DefaultBase && BaseOf(reference) == DefaultBase
    {
      config := new IC.ImageConfiguration();
      reference := new IC.ImageConfiguration();
      corrector := new DC.Corrector(DC.Geometry(3584, 2528));
    }

    /** `SetImageConfiguration`: the given layout becomes both the current and the reference one. */
    method SetImageConfiguration(c: IC.ImageConfiguration)
      requires Valid() && c.Consistent()
      modifies config, reference, corrector
      ensures Valid()
      ensures BaseOf(config) == old(BaseOf(c)) && BaseOf(reference) == old(BaseOf(c))
    {
      config.Assign(c);
      reference.Assign(c);
      corrector.SetImageConfiguration(DC.Geometry(c.image.width, c.image.height));
    }

    /**
     * `_SetImageConfiguration` as written: the typical test is made against the
     * current layout, and the corner height against the current corner height.
     */
    method SetImageSize(size: DC.ImageSize)
      requires Valid()
      modifies config, corrector
      ensures Valid()
      ensures BaseOf(config) == NextBaseAsWritten(old(BaseOf(config)), BaseOf(reference), size)
      ensures BaseOf(reference) == old(BaseOf(reference))
    {
      if !Typical(BaseOf(config), size) {
        var cornerHeight := CornerFor(reference.biasCornerHeight, config.biasCornerHeight);
        config.image := IC.Area(0, 0, size.width, size.height);
        config.active := IC.Area(0, 0, size.width, size.height);
        config.biasCornerWidth := CornerFor(reference.biasCornerWidth, size.width);
        config.biasCornerHeight := cornerHeight;
        config.centralHOffset := 0;
        config.centralVOffset := 0;
        config.UpdateSettings();
      } else {
        config.Assign(reference);
      }
      corrector.SetImageConfiguration(DC.Geometry(config.image.width, config.image.height));
    }

    /**
     * `ComputeWrongBands`: 0 when the capture size differs from the current
     * layout, otherwise the number of band pixels above the threshold.
     */
    method ComputeWrongBands(raw: array<int>, threshold: int, size: DC.ImageSize) returns (defects: int)
      requires Valid() && raw.Length >= 1
      requires size.width == config.image.width && size.height == config.image.height ==>
        0 <= size.width && 0 <= size.height && size.height * size.width <= raw.Length
      ensures defects == (if size.height != config.image.height || size.width != config.image.width then 0
                          else BandsCount(raw[..], config.settings, size.width, threshold, size.height))
    {
      if size.height != config.image.height || size.width != config.image.width {
        return 0;
      }
      var width, height := size.width, size.height;
      var bands := config.settings;
      defects := 0;
      var line := 0;
      while line < height
        invariant 0 <= line <= height
        invariant line * width <= height * width
        invariant defects == BandsCount(raw[..], bands, width, threshold, line)
      {
        PreviousLine(line + 1, width);
        NextLineInside(line, width, height);
        var n := CountLine(raw, bands, width, threshold, line);
        defects := defects + n;
        line := line + 1;
      }
    }
  }

  lemma NextLineInside(line: int, width: int, height: int)
    requires 0 <= line < height && 0 <= width
    ensures (line + 1) * width <= height * width
  {
    if width > 0 && line + 1 < height {
      C.MulAtLeast(height - line - 1, width);
    }
  }

  /** The inner loop of `ComputeWrongBands` over one line. */
  method CountLine(raw: array<int>, bands: IC.Settings, width: int, threshold: int, line: int) returns (n: int)
    requires 0 <= line && 0 <= width && Cell(line, width, width) <= raw.Length
    ensures n == LineCount(raw[..], bands, width, threshold, line, width)
  {
    n := 0;
    var pixel := 0;
    while pixel < width
      invariant 0 <= pixel <= width
      invariant n == LineCount(raw[..], bands, width, threshold, line, pixel)
    {
      if InBands(bands, pixel, line) && raw[Cell(line, pixel, width)] > threshold {
        n := n + 1;
      }
      pixel := pixel + 1;
    }
  }
}
