/*
 * The CoaXPress frame store: one image frame (NUMBER_OF_FRAME is 1) whose
 * accumulator sums the 16-bit pixels of successive grabbed buffers and
 * whose image is their integer average. The accumulator is 32-bit and the
 * image 16-bit; both wrap-arounds are written out.
 */
module CoaXpressFrame {
  import opened Common

  const NumberOfFrame: int := 1
  const Word16: int := 0x1_0000
  const Word32: int := 0x1_0000_0000

  datatype PixelFormat = Mono8 | Mono10 | Mono12 | UnknownFormat
  datatype Manufacturer = Adimec | CriticalLink | UnknownManufacturer

  datatype Feature = Feature(width: int, height: int, offsetX: int, offsetY: int,
                             format: PixelFormat, manufacturer: Manufacturer)

  /** `GetImageIndex`: there is a single frame, so the index is always its own. */
  function GetImageIndex(): (i: int)
    ensures 0 <= i < NumberOfFrame
  {
    0
  }

  function BytesPerPixel(format: PixelFormat): (b: int)
    ensures b == 1 <==> format == Mono8
    ensures b == 1 || b == 2
  {
    if format == Mono8 then 1 else 2
  }

  predicate Pixels16(s: seq<int>)
  {
    forall i :: 0 <= i < |s| ==> 0 <= s[i] < Word16
  }

  predicate Words32(s: seq<int>)
  {
    forall i :: 0 <= i < |s| ==> 0 <= s[i] < Word32
  }

  /** The bytes of a vector of 16-bit pixels as they lie in memory (little-endian). */
  function Memory(image: seq<int>): (b: seq<Byte>)
    requires Pixels16(image)
    ensures |b| == 2 * |image|
  {
    if image == [] then [] else [image[0] % 256, image[0] / 256] + Memory(image[1..])
  }

  function FromMemory(b: seq<Byte>): (image: seq<int>)
    requires |b| % 2 == 0
    ensures |image| == |b| / 2 && Pixels16(image)
  {
    if b == [] then [] else [b[0] + 256 * b[1]] + FromMemory(b[2..])
  }

  lemma {:induction false} MemoryRoundTrip(image: seq<int>)
    requires Pixels16(image)
    ensures FromMemory(Memory(image)) == image
  {
    if image != [] {
      assert Memory(image)[2..] == Memory(image[1..]);
      MemoryRoundTrip(image[1..]);
    }
  }

  /** One `AppendImage` pass over the first `n` pixels: a copy when nothing is accumulated yet, a 32-bit sum otherwise. */
  function Accumulate(acc: seq<int>, px: seq<int>, n: nat, count: nat): (r: seq<int>)
    requires n <= |acc| && n <= |px|
    ensures |r| == |acc|
    ensures forall i :: n <= i < |acc| ==> r[i] == acc[i]
  {
    seq(|acc|, i requires 0 <= i < |acc| =>
      if i >= n then acc[i] else if count == 0 then px[i] else (acc[i] + px[i]) % Word32)
  }

  predicate AllCover(frames: seq<seq<int>>, n: nat)
  {
    forall j :: 0 <= j < |frames| ==> n <= |frames[j]| && Pixels16(frames[j])
  }

  /** Successive appends of `frames`, the first one at accumulation count `count`. */
  function Fold(acc: seq<int>, frames: seq<seq<int>>, n: nat, count: nat): (r: seq<int>)
    requires n <= |acc| && AllCover(frames, n)
    ensures |r| == |acc|
    decreases |frames|
  {
    if frames == [] then acc
    else Fold(Accumulate(acc, frames[0], n, count), frames[1..], n, count + 1)
  }

  /** The sum of pixel `i` over all frames. */
  function SumAt(frames: seq<seq<int>>, i: nat): (s: int)
    requires forall j :: 0 <= j < |frames| ==> i < |frames[j]|
  {
    if frames == [] then 0 else frames[0][i] + SumAt(frames[1..], i)
  }

  lemma {:induction false} SumAtBound(frames: seq<seq<int>>, i: nat, n: nat)
    requires i < n && AllCover(frames, n)
    ensures 0 <= SumAt(frames, i) <= (Word16 - 1) * |frames|
  {
    if frames != [] {
      SumAtBound(frames[1..], i, n);
    }
  }

  /** Once something is accumulated, later appends add up exactly as long as the sum stays below 2^32. */
  lemma {:induction false} FoldAdds(acc: seq<int>, frames: seq<seq<int>>, n: nat, count: nat, i: nat)
    requires i < n <= |acc| && AllCover(frames, n) && count > 0
    requires 0 <= acc[i] && acc[i] + (Word16 - 1) * |frames| < Word32
    ensures Fold(acc, frames, n, count)[i] == acc[i] + SumAt(frames, i)
    decreases |frames|
  {
    if frames != [] {
      var next := Accumulate(acc, frames[0], n, count);
      assert next[i] == acc[i] + frames[0][i];
      FoldAdds(next, frames[1..], n, count + 1, i);
    }
  }

  /** Starting from an empty accumulator, up to 65537 frames of 16-bit pixels sum without wrapping. */
  lemma FoldSums(acc: seq<int>, frames: seq<seq<int>>, n: nat, i: nat)
    requires i < n <= |acc| && AllCover(frames, n)
    requires 1 <= |frames| <= Word16 + 1
    ensures Fold(acc, frames, n, 0)[i] == SumAt(frames, i)
  {
    var first := Accumulate(acc, frames[0], n, 0);
    assert first[i] == frames[0][i];
    assert Fold(acc, frames, n, 0) == Fold(first, frames[1..], n, 1);
    FoldAdds(first, frames[1..], n, 1, i);
  }

  /** `GetImage`: each pixel the accumulated value divided by the count, stored in 16 bits. */
  function Averaged(image: seq<int>, acc: seq<int>, count: nat): (r: seq<int>)
    requires |image| <= |acc| && Pixels16(image) && Words32(acc)
    ensures |r| == |image| && Pixels16(r)
    ensures count == 0 ==> r == image
  {
    if count == 0 then image
    else seq(|image|, i requires 0 <= i < |image| => (acc[i] / count) % Word16)
  }

  /** The image read after appending `k` frames, 1 <= k <= 65537, is their floor average, with no truncation. */
  lemma AverageOfFrames(image: seq<int>, acc: seq<int>, frames: seq<seq<int>>, n: nat, i: nat)
    requires i < |image| && |image| <= n <= |acc| && Pixels16(image) && AllCover(frames, n)
    requires 1 <= |frames| <= Word16 + 1
    requires Words32(Fold(acc, frames, n, 0))
    ensures Averaged(image, Fold(acc, frames, n, 0), |frames|)[i] == SumAt(frames, i) / |frames|
  {
    var f := Fold(acc, frames, n, 0);
    var k := |frames|;
    FoldSums(acc, frames, n, i);
    SumAtBound(frames, i, n);
    var s := SumAt(frames, i);
    assert f[i] == s;
    DivBound(s, k, Word16 - 1);
    assert Averaged(image, f, k)[i] == (s / k) % Word16;
  }

  lemma DivBound(s: int, k: int, m: int)
    requires 0 <= s <= m * k && k > 0 && m >= 0
    ensures 0 <= s / k <= m
  {
  }

  class ImageFrame {
    var feature: Feature
    var bytesPerPixel: int
    var pixelNumber: int
    var image: seq<int>
    var accumulated: seq<int>
    var accumulatedCount: nat
    /** mHeight and mWidth, written by `Initialise`. */
    var height: int
    var width: int

    ghost predicate Valid()
      reads this
    {
      && (bytesPerPixel == 1 || bytesPerPixel == 2)
      && |image| == pixelNumber == |accumulated|
      && Pixels16(image) && Words32(accumulated)
    }

    constructor ()
      ensures Valid() && pixelNumber == 0 && accumulatedCount == 0
    {
      feature := Feature(0, 0, 0, 0, Mono8, UnknownManufacturer);
      bytesPerPixel := 1;
      pixelNumber := 0;
      image := [];
      accumulated := [];
      accumulatedCount := 0;
      height := 0;
      width := 0;
    }

    /** `SetFeature` (and `SetFrameSize`, which applies it to the only frame). */
    method SetFeature(f: Feature)
      requires f.width >= 0 && f.height >= 0
      modifies this
      ensures Valid()
      ensures feature == f && bytesPerPixel == BytesPerPixel(f.format)
      ensures pixelNumber == f.height * f.width
      ensures image == seq(pixelNumber, _ => 0) && accumulated == seq(pixelNumber, _ => 0)
      ensures accumulatedCount == 0 && height == old(height) && width == old(width)
    {
      feature := f;
      bytesPerPixel := 1;
      if f.format != Mono8 {
        bytesPerPixel := 2;
      }
      pixelNumber := f.height * f.width;
      image := seq(pixelNumber, _ => 0);
      accumulated := seq(pixelNumber, _ => 0);
      accumulatedCount := 0;
    }

    /** The bytes `StoreImage` copies: the image vector's size times the bytes per pixel. */
    function StoreSize(): int
      reads this
    {
      |image| * bytesPerPixel
    }

    /** `StoreImage`: row-sized chunks of the buffer are copied over the image's memory until the frame's size is reached. */
    method StoreImage(src: seq<Byte>)
      requires Valid() && StoreSize() <= |src|
      requires feature.width >= 0 && feature.height >= 0
      requires StoreSize() == feature.height * (feature.width * bytesPerPixel)
      modifies this`image
      ensures Valid()
      ensures image == FromMemory(src[..old(StoreSize())] + Memory(old(image))[old(StoreSize())..])
    {
      var n := StoreSize();
      var before := Memory(image);
      assert n <= |before| by {
        if bytesPerPixel == 1 {
          assert n == |image|;
        } else {
          assert n == 2 * |image|;
        }
      }
      var mem := CopyChunks(src, before, feature.height, feature.width * bytesPerPixel);
      image := FromMemory(mem);
    }

    /** `Initialise`: records the buffer's size and clears the accumulator before a first append. */
    method Initialise(h: int, w: int) returns (n: int)
      requires Valid() && 0 <= h && 0 <= w && h * w <= |accumulated|
      modifies this`height, this`width, this`accumulated
      ensures Valid() && n == h * w && height == h && width == w
      ensures old(accumulatedCount) == 0 ==> accumulated == seq(n, _ => 0) + old(accumulated)[n..]
      ensures old(accumulatedCount) != 0 ==> accumulated == old(accumulated)
    {
      height := h;
      width := w;
      n := h * w;
      if accumulatedCount == 0 {
        accumulated := seq(n, _ => 0) + accumulated[n..];
      }
    }

    /** `AppendImage`: a buffer larger than the frame is ignored; otherwise its pixels are copied or added in. */
    method AppendImage(bufSize: int, bufWidth: int, bufHeight: int, px: seq<int>)
      requires Valid() && Pixels16(px)
      requires bufSize > pixelNumber * bytesPerPixel ||
               (0 <= bufHeight && 0 <= bufWidth && bufHeight * bufWidth <= |accumulated| && bufHeight * bufWidth <= |px|)
      modifies this
      ensures Valid()
      ensures bufSize > old(pixelNumber * bytesPerPixel) ==> unchanged(this)
      ensures bufSize <= old(pixelNumber * bytesPerPixel) ==>
        && feature == old(feature).(width := bufWidth, height := bufHeight, offsetX := 0, offsetY := 0)
        && height == bufHeight && width == bufWidth
        && accumulated == Accumulate(old(accumulated), px, bufHeight * bufWidth, old(accumulatedCount))
        && accumulatedCount == old(accumulatedCount) + 1
        && image == old(image) && pixelNumber == old(pixelNumber) && bytesPerPixel == old(bytesPerPixel)
    {
      if bufSize > pixelNumber * bytesPerPixel {
        return;
      }
      feature := feature.(width := bufWidth, height := bufHeight, offsetX := 0, offsetY := 0);
      ghost var original := accumulated;
      var n := Initialise(bufHeight, bufWidth);
      var count := accumulatedCount;
      AddPixels(px, n);
      assert accumulated == Accumulate(original, px, n, count);
      accumulatedCount := accumulatedCount + 1;
    }

    /** The accumulation loop of `AppendImage` over the first `n` pixels. */
    method AddPixels(px: seq<int>, n: int)
      requires Valid() && Pixels16(px) && 0 <= n <= |accumulated| && n <= |px|
      modifies this`accumulated
      ensures Valid()
      ensures accumulated == Accumulate(old(accumulated), px, n, accumulatedCount)
    {
      var count := accumulatedCount;
      var start := accumulated;
      var index := 0;
      while index < n
        invariant 0 <= index <= n && |accumulated| == |start|
        invariant forall i :: 0 <= i < index ==>
          accumulated[i] == (if count == 0 then px[i] else (start[i] + px[i]) % Word32)
        invariant forall i :: index <= i < |start| ==> accumulated[i] == start[i]
      {
        if count == 0 {
          accumulated := accumulated[index := px[index]];
        } else {
          accumulated := accumulated[index := (accumulated[index] + px[index]) % Word32];
        }
        index := index + 1;
      }
      assert accumulated == Accumulate(start, px, n, count);
    }

    /** `GetImage`: the average is written to the image when something is accumulated; the count always returns to 0. */
    method GetImage()
      requires Valid()
      modifies this`image, this`accumulatedCount
      ensures Valid()
      ensures image == Averaged(old(image), accumulated, old(accumulatedCount))
      ensures accumulatedCount == 0
    {
      if accumulatedCount != 0 {
        var count := accumulatedCount;
        var index := 0;
        ghost var before := image;
        while index < pixelNumber
          invariant 0 <= index <= pixelNumber && |image| == pixelNumber
          invariant forall i :: 0 <= i < index ==> image[i] == (accumulated[i] / count) % Word16
          invariant forall i :: index <= i < pixelNumber ==> image[i] == before[i]
        {
          image := image[index := (accumulated[index] / count) % Word16];
          index := index + 1;
        }
        assert image == Averaged(before, accumulated, count);
      }
      accumulatedCount := 0;
    }
  }

  /** The copy loop of `StoreImage`: `rows` chunks of `chunk` bytes, each one memcpy, counted down by `remain`. */
  method CopyChunks(src: seq<Byte>, before: seq<Byte>, rows: int, chunk: int) returns (mem: seq<Byte>)
    requires rows >= 0 && chunk >= 0 && rows * chunk <= |src| && rows * chunk <= |before|
    ensures mem == src[..rows * chunk] + before[rows * chunk..]
  {
    var n := rows * chunk;
    mem := before;
    var copied := 0;
    var remain := n;
    ghost var left := rows;
    while remain > 0
      invariant 0 <= copied && remain >= 0 && copied + remain == n
      invariant left >= 0 && remain == left * chunk
      invariant mem == src[..copied] + before[copied..]
    {
      RowStep(left, chunk);
      mem := src[..copied + chunk] + before[copied + chunk..];
      copied := copied + chunk;
      remain := remain - chunk;
      left := left - 1;
    }
  }

  lemma RowStep(rows: int, chunk: int)
    requires rows >= 0 && chunk >= 0 && rows * chunk > 0
    ensures rows >= 1 && chunk > 0 && rows * chunk - chunk == (rows - 1) * chunk
  {
  }
}
