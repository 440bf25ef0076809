/*
 * ImageConfiguration: the sensor image layout. The image, its active area,
 * the size of the bias corners and the offsets of the central area are set
 * from outside; `UpdateSettings` derives the inactive bands (top, left,
 * right), the four bias corners and the central and bias-centre areas.
 */
module ImageConfig {
  import C = Common

  /** A rectangle given by its offsets and its size. */
  datatype Area = Area(hOffset: int, vOffset: int, width: int, height: int)

  /** PIXEL_SIZE: two bytes per pixel. */
  const PixelSize: int := 2

  /** The number of pixels of an area and the number of bytes they take. */
  function Pixels(a: Area): int
  {
    a.width * a.height
  }

  function Bytes(a: Area): int
  {
    Pixels(a) * PixelSize
  }

  predicate Inside(a: Area, x: int, y: int)
  {
    a.hOffset <= x < a.hOffset + a.width && a.vOffset <= y < a.vOffset + a.height
  }

  /** The top inactive band: the full image width above the active area. */
  function TopBand(image: Area, active: Area): Area
  {
    Area(0, 0, image.width, active.vOffset)
  }

  /** The left and right inactive bands: as wide as the active area's horizontal offset, beside it. */
  function LeftBand(active: Area): Area
  {
    Area(0, active.vOffset, active.hOffset, active.height)
  }

  function RightBand(image: Area, active: Area): Area
  {
    Area(image.width - active.hOffset, active.vOffset, active.hOffset, active.height)
  }

  /** The bias corners of the active area: top left (a), top right (b), bottom left (c), bottom right (d). */
  function CornerA(active: Area, w: int, h: int): Area
  {
    Area(active.hOffset, active.vOffset, w, h)
  }

  function CornerB(active: Area, w: int, h: int): Area
  {
    Area(active.hOffset + active.width - w, active.vOffset, w, h)
  }

  function CornerC(active: Area, w: int, h: int): Area
  {
    Area(active.hOffset, active.vOffset + active.height - h, w, h)
  }

  function CornerD(active: Area, w: int, h: int): Area
  {
    Area(active.hOffset + active.width - w, active.vOffset + active.height - h, w, h)
  }

  /** The bias centre: a square of the active height, centred in the active area. */
  function BiasCenter(active: Area): Area
  {
    Area(active.hOffset + C.TruncDiv(active.width - active.height, 2),
         active.vOffset + C.TruncDiv(active.height - active.height, 2),
         active.height, active.height)
  }

  /** An active area set symmetrically in the image, as ComputeWrongBands' bands assume. */
  predicate Symmetric(image: Area, active: Area)
  {
    0 <= active.hOffset && 0 <= active.vOffset && 0 <= active.height
    && active.width == image.width - 2 * active.hOffset && active.width >= 0
  }

  /**
   * Above the bottom of the active area, every image pixel is in exactly one
   * of the top band, the left band, the right band and the active area.
   */
  lemma BandsPartition(image: Area, active: Area, x: int, y: int)
    requires Symmetric(image, active)
    requires 0 <= x < image.width && 0 <= y < active.vOffset + active.height
    ensures Inside(TopBand(image, active), x, y) || Inside(LeftBand(active), x, y)
         || Inside(RightBand(image, active), x, y) || Inside(active, x, y)
    ensures !(Inside(TopBand(image, active), x, y) && Inside(LeftBand(active), x, y))
    ensures !(Inside(TopBand(image, active), x, y) && Inside(RightBand(image, active), x, y))
    ensures !(Inside(TopBand(image, active), x, y) && Inside(active, x, y))
    ensures !(Inside(LeftBand(active), x, y) && Inside(RightBand(image, active), x, y))
    ensures !(Inside(LeftBand(active), x, y) && Inside(active, x, y))
    ensures !(Inside(RightBand(image, active), x, y) && Inside(active, x, y))
  {
  }

  /** Corners no larger than half the active area lie inside it and do not overlap. */
  lemma CornersInsideActive(active: Area, w: int, h: int, x: int, y: int)
    requires 0 <= w && 2 * w <= active.width && 0 <= h && 2 * h <= active.height
    ensures Inside(CornerA(active, w, h), x, y) || Inside(CornerB(active, w, h), x, y)
         || Inside(CornerC(active, w, h), x, y) || Inside(CornerD(active, w, h), x, y)
         ==> Inside(active, x, y)
    ensures !(Inside(CornerA(active, w, h), x, y) && Inside(CornerB(active, w, h), x, y))
    ensures !(Inside(CornerA(active, w, h), x, y) && Inside(CornerC(active, w, h), x, y))
    ensures !(Inside(CornerB(active, w, h), x, y) && Inside(CornerD(active, w, h), x, y))
    ensures !(Inside(CornerC(active, w, h), x, y) && Inside(CornerD(active, w, h), x, y))
  {
  }

  /** For an active area at least as wide as it is high, the bias centre lies inside it with equal margins. */
  lemma BiasCenterInside(active: Area, x: int, y: int)
    requires 0 <= active.height <= active.width
    ensures Inside(BiasCenter(active), x, y) ==> Inside(active, x, y)
    ensures var c := BiasCenter(active);
            var left := c.hOffset - active.hOffset;
            var right := active.hOffset + active.width - (c.hOffset + c.width);
            left == right || left + 1 == right
  {
  }

  /** The fields `UpdateSettings` derives from the base ones. */
  datatype Settings = Settings(
    nbPixels: int, nbBytes: int,
    top: Area, left: Area, right: Area,
    biasCornerSize: int, centralWidth: int, centralHeight: int,
    biasA: Area, biasB: Area, biasC: Area, biasD: Area, biasCenter: Area)

  /** The derived fields as a function of the base ones. */
  function Derive(image: Area, active: Area, cornerWidth: int, cornerHeight: int, centralHOffset: int): Settings
  {
    Settings(Pixels(image), Bytes(image),
             TopBand(image, active), LeftBand(active), RightBand(image, active),
             Pixels(Area(0, 0, cornerWidth, cornerHeight)), image.width - 2 * centralHOffset, active.height,
             CornerA(active, cornerWidth, cornerHeight), CornerB(active, cornerWidth, cornerHeight),
             CornerC(active, cornerWidth, cornerHeight), CornerD(active, cornerWidth, cornerHeight),
             BiasCenter(active))
  }

  class ImageConfiguration {
    var image: Area
    var active: Area
    var biasCornerWidth: int
    var biasCornerHeight: int
    var centralHOffset: int
    var centralVOffset: int
    var settings: Settings

    /** The derived fields agree with the base ones. */
    ghost predicate Consistent()
      reads this
    {
      settings == Derive(image, active, biasCornerWidth, biasCornerHeight, centralHOffset)
    }

    /** The default layout: a 3584x2528 image with a 3360x2496 active area at (112, 32). */
    constructor ()
      ensures Consistent()
      ensures image == Area(0, 0, 3584, 2528) && active == Area(112, 32, 3360, 2496)
      ensures biasCornerWidth == 32 && biasCornerHeight == 70
      ensures centralHOffset == 492 && centralVOffset == 32
    {
      image := Area(0, 0, 3584, 2528);
      active := Area(112, 32, 3360, 2496);
      biasCornerWidth := 32;
      biasCornerHeight := 70;
      centralHOffset := 492;
      centralVOffset := 32;
      new;
      UpdateSettings();
    }

    /** The copy constructor: base fields copied, derived ones recomputed. */
    constructor Copy(other: ImageConfiguration)
      ensures Consistent()
      ensures image == other.image && active == other.active
      ensures biasCornerWidth == other.biasCornerWidth && biasCornerHeight == other.biasCornerHeight
      ensures centralHOffset == other.centralHOffset && centralVOffset == other.centralVOffset
    {
      image := other.image;
      active := other.active;
      biasCornerWidth := other.biasCornerWidth;
      biasCornerHeight := other.biasCornerHeight;
      centralHOffset := other.centralHOffset;
      centralVOffset := other.centralVOffset;
      new;
      UpdateSettings();
    }

    /** `UpdateSettings` (and `UpdateConfiguration`): every derived field recomputed, the base fields kept. */
    method UpdateSettings()
      modifies this
      ensures Consistent()
      ensures image == old(image) && active == old(active)
      ensures biasCornerWidth == old(biasCornerWidth) && biasCornerHeight == old(biasCornerHeight)
      ensures centralHOffset == old(centralHOffset) && centralVOffset == old(centralVOffset)
    {
      var centerSide := active.height;
      settings := Settings(
        image.width * image.height, image.width * image.height * PixelSize,
        Area(0, 0, image.width, active.vOffset),
        Area(0, active.vOffset, active.hOffset, active.height),
        Area(image.width - active.hOffset, active.vOffset, active.hOffset, active.height),
        biasCornerWidth * biasCornerHeight, image.width - 2 * centralHOffset, active.height,
        Area(active.hOffset, active.vOffset, biasCornerWidth, biasCornerHeight),
        Area(active.hOffset + active.width - biasCornerWidth, active.vOffset, biasCornerWidth, biasCornerHeight),
        Area(active.hOffset, active.vOffset + active.height - biasCornerHeight, biasCornerWidth, biasCornerHeight),
        Area(active.hOffset + active.width - biasCornerWidth, active.vOffset + active.height - biasCornerHeight,
             biasCornerWidth, biasCornerHeight),
        Area(active.hOffset + C.TruncDiv(active.width - centerSide, 2), active.vOffset + C.TruncDiv(active.height - centerSide, 2),
             centerSide, centerSide));
    }

    /** Assignment from another configuration (the implicit `operator=`): every field copied. */
    method Assign(other: ImageConfiguration)
      modifies this
      ensures image == other.image && active == other.active
      ensures biasCornerWidth == other.biasCornerWidth && biasCornerHeight == other.biasCornerHeight
      ensures centralHOffset == other.centralHOffset && centralVOffset == other.centralVOffset
      ensures settings == other.settings
      ensures other.Consistent() ==> Consistent()
      ensures image == old(other.image) && active == old(other.active) && settings == old(other.settings)
      ensures biasCornerWidth == old(other.biasCornerWidth) && biasCornerHeight == old(other.biasCornerHeight)
      ensures centralHOffset == old(other.centralHOffset) && centralVOffset == old(other.centralVOffset)
      ensures old(other.Consistent()) ==> Consistent()
    {
      image, active := other.image, other.active;
      biasCornerWidth, biasCornerHeight := other.biasCornerWidth, other.biasCornerHeight;
      centralHOffset, centralVOffset := other.centralHOffset, other.centralVOffset;
      settings := other.settings;
    }
  }
}
