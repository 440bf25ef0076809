/*
 * ConoscopeConfig: the settings record kept in `config.json`. The JSON
 * file is a value of this model: `_Save` builds a document from the
 * record, `_Load` reads one back, clamping and aligning what it reads.
 */
module ConoscopeConfig {
  import C = Common
  import P = ConoscopeProcess

  /**
   * The item names of the settings file, each constructor spelling its JSON
   * name with the first letter capitalised; `OtherKey` stands for any other name.
   */
  datatype Key =
    AEExpoTimeGranularityUs | AELevelPercent | AEMaxExpoTimeUs | AEMaxNbPixel | AEMeasAreaHeight
    | AEMeasAreaWidth | AEMeasAreaX | AEMeasAreaY | AEMinExpoTimeUs | BAbsolute | BAutoExposure
    | BBiasCompensation | BFlatField | BLinearisation | BSaveCapture | BSensorDefectCorrection
    | BSensorPrnuCorrection | BTestPattern | BUseExpoFile | BUseRoi | BWaitForSensorTemperature
    | BinningFactor | CapturePath | CaptureSequenceMaxNbPixel | CfgFileIsZip | CfgFileName | CfgPath
    | DebugMode | DummyRawImagePath | EFilter | EIris | ENd | EmulateCamera | EmulateWheel
    | ExportFileNameFormat | ExportFormat | ExposureTimeUs | ExposureTimeUs_FilterX | ExposureTimeUs_FilterXz
    | ExposureTimeUs_FilterYa | ExposureTimeUs_FilterYb | ExposureTimeUs_FilterZ | FileNameAppend
    | FileNamePrepend | NbAcquisition | RoiXLeft | RoiXRight | RoiYBottom | RoiYTop | SensorTemperature | OtherKey(name: string)

  /** The seven section labels of the settings file, and any other name. */
  datatype Section = CmdSetup | CmdMeasure | CmdProcessing | DebugSettings | Settings | SettingsI | CaptureSequence
    | OtherSection(name: string)

  /** A JSON value as far as the settings use it; numbers are integers here. */
  datatype Json = JNumber(n: int) | JBool(b: bool) | JString(s: string) | JObject(fields: map<Key, Json>)

  /** A section of the file. */
  type Object = map<Key, Json>

  /** The whole file: its sections by label. */
  type Document = map<Section, Json>

  /** `QJsonValue::toInt`, `toBool`, `toString` and `toObject`: a missing or mistyped item reads as 0, false, "" or {}. */
  function ToInt(o: Object, key: Key): int
  {
    if key in o && o[key].JNumber? then o[key].n else 0
  }

  function ToBool(o: Object, key: Key): bool
  {
    if key in o && o[key].JBool? then o[key].b else false
  }

  function ToText(o: Object, key: Key): string
  {
    if key in o && o[key].JString? then o[key].s else ""
  }

  function ToObject(doc: Document, part: Section): Object
  {
    if part in doc && doc[part].JObject? then doc[part].fields else map[]
  }

  // ---------------------------------------------------------------- the record

  datatype SetupConfig = SetupConfig(sensorTemperature: int, filter: int, nd: int, iris: int)

  datatype MeasureConfig = MeasureConfig(exposureTimeUs: int, nbAcquisition: int, binningFactor: int, testPattern: bool)

  datatype ConoscopeDebugSettings = ConoscopeDebugSettings(debugMode: bool, emulateCamera: bool, dummyRawImagePath: string, emulateWheel: bool)

  datatype ConoscopeSettings = ConoscopeSettings(
    cfgPath: string, capturePath: string, fileNamePrepend: string, fileNameAppend: string,
    exportFileNameFormat: string, exportFormat: int,
    aeMinExpoTimeUs: int, aeMaxExpoTimeUs: int, aeExpoTimeGranularityUs: int, aeLevelPercent: int,
    aeMeasAreaHeight: int, aeMeasAreaWidth: int, aeMeasAreaX: int, aeMeasAreaY: int,
    useRoi: bool, roiXLeft: int, roiXRight: int, roiYTop: int, roiYBottom: int)

  datatype ConoscopeSettingsI = ConoscopeSettingsI(cfgFileName: string, cfgFileIsZip: bool, aeMaxNbPixel: int)

  datatype CaptureSequenceConfig = CaptureSequenceConfig(
    sensorTemperature: int, waitForSensorTemperature: bool, nd: int, iris: int,
    exposureX: int, exposureXz: int, exposureYa: int, exposureYb: int, exposureZ: int,
    nbAcquisition: int, autoExposure: bool, useExpoFile: bool, saveCapture: bool)

  /** The seven structures a `ConoscopeConfig` keeps. */
  datatype Record = Record(
    setup: SetupConfig, measure: MeasureConfig, processing: P.ProcessingConfig, debug: ConoscopeDebugSettings,
    settings: ConoscopeSettings, settingsI: ConoscopeSettingsI, capture: CaptureSequenceConfig)

  /** `_Default`. */
  const Defaults: Record := Record(
    SetupConfig(25, 2, 0, 0),
    MeasureConfig(40000, 1, 0, false),
    P.ProcessingConfig(true, true, true, true, true, true),
    ConoscopeDebugSettings(false, false, "", false),
    ConoscopeSettings("./Cfg", "./Capture", "", "", "", 0, 10, 980000, 1, 80,
             200, 288, 3808, 2902, false, 0, 6004, 0, 6004),
    ConoscopeSettingsI("Cfg.zip", true, 5000),
    CaptureSequenceConfig(25, false, 0, 0, 10000, 10000, 10000, 10000, 10000, 1, true, false, true))

  // ---------------------------------------------------------------- clamping and alignment

  const ImageWidth := 7920
  const ImageHeight := 6004
  const ImageSize := 6001
  const MinExposureUs := 10
  const MaxExposureUs := 985000

  /** `_CheckThreshold`. */
  function Clamp(v: int, min: int, max: int): (r: int)
    requires min <= max
    ensures min <= r <= max
    ensures min <= v <= max ==> r == v
    ensures v < min ==> r == min
    ensures v > max ==> r == max
  {
    if v < min then min else if v > max then max else v
  }

  /** `CHECK_MAX_VALUE`. */
  function AtMost(v: int, max: int): (r: int)
    ensures r <= max && (v <= max ==> r == v) && (v > max ==> r == max)
  {
    if v > max then max else v
  }

  /** C's `%`, which truncates toward zero. */
  function TruncRem(v: int, m: int): int
    requires m > 0
  {
    if v >= 0 then v % m else -((-v) % m)
  }

  /** `ALIGN_VALUE`: the multiple of `m` next to `v` toward zero. */
  function AlignValue(v: int, m: int): (r: int)
    requires m > 0
    ensures r % m == 0 && (v % m == 0 ==> r == v)
    ensures if v >= 0 then 0 <= r <= v && v - r < m else v <= r <= 0 && r - v < m
  {
    var t := TruncRem(v, m);
    AlignValueMultiple(v, m, t);
    v - t
  }

  lemma AlignValueMultiple(v: int, m: int, t: int)
    requires m > 0 && t == TruncRem(v, m)
    ensures (v - t) % m == 0 && (v % m == 0 ==> v - t == v)
    ensures if v >= 0 then 0 <= v - t <= v && v - (v - t) < m else v <= v - t <= 0 && (v - t) - v < m
  {
    if v >= 0 {
      AlignNonNegative(v, m);
    } else {
      AlignNegative(v, m, t);
    }
    AlignBounds(v, m, t);
  }

  lemma AlignBounds(v: int, m: int, t: int)
    requires m > 0 && (if v >= 0 then 0 <= t < m && t <= v else -m < t <= 0 && v <= t)
    ensures if v >= 0 then 0 <= v - t <= v && v - (v - t) < m else v <= v - t <= 0 && (v - t) - v < m
  {
  }

  lemma AlignNegative(v: int, m: int, t: int)
    requires m > 0 && v < 0 && t == TruncRem(v, m)
    ensures (v - t) % m == 0 && (v % m == 0 ==> t == 0)
    ensures -m < t <= 0 && v <= t
  {
    var w := -v;
    AlignNonNegative(w, m);
    assert t == -(w % m);
    MultipleNegated(w - w % m, m);
    assert v - t == -(w - w % m);
    if v % m == 0 {
      MultipleNegated(v, m);
    }
  }

  lemma AlignNonNegative(v: int, m: int)
    requires m > 0 && v >= 0
    ensures TruncRem(v, m) == v % m && 0 <= TruncRem(v, m) < m && TruncRem(v, m) <= v
    ensures (v - v % m) % m == 0
  {
    C.DivUnique(v - v % m, m, v / m, 0);
    if v < m {
      C.DivUnique(v, m, 0, v);
    }
  }

  lemma MultipleNegated(a: int, m: int)
    requires m > 0 && a % m == 0
    ensures (-a) % m == 0
  {
    C.DivUnique(-a, m, -(a / m), 0);
  }

  /** A multiple of `m` subtracted from a multiple of `m` leaves a multiple of `m`. */
  lemma MultipleDifference(a: int, b: int, m: int)
    requires m > 0 && a % m == 0 && b % m == 0
    ensures (a - b) % m == 0
  {
    C.DivUnique(a - b, m, a / m - b / m, 0);
  }

  /** The AE area as `_Load` leaves it: aligned, at most the sensor, and moved inside it. */
  datatype Area = Area(height: int, width: int, x: int, y: int)

  /** Lines 314-331 exactly as written: the height may lose its alignment when it is cut to fit. */
  function FitAreaAsWritten(height: int, width: int, x: int, y: int): Area
  {
    var h := AtMost(AlignValue(height, 4), ImageHeight);
    var w := AtMost(AlignValue(width, 16), ImageWidth);
    var ax := AlignValue(x, 16);
    var ay := AlignValue(y, 2);
    Area(if ay + h > ImageHeight then ImageHeight - ay else h,
         if ax + w > ImageWidth then ImageWidth - ax else w, ax, ay)
  }

  /** A stored area whose height the fitting step leaves off the multiple of 4. */
  lemma AreaHeightMisalignedAsWritten()
    ensures FitAreaAsWritten(3200, 288, 3808, 2902).height == 3102
    ensures 3102 % 4 != 0
  {
  }

  /** The fitting step with the cut height aligned down again, so that both promises of the code hold. */
  function FitArea(height: int, width: int, x: int, y: int): (a: Area)
    ensures a.height % 4 == 0 && a.width % 16 == 0 && a.x % 16 == 0 && a.y % 2 == 0
    ensures a.height <= ImageHeight && a.width <= ImageWidth
    ensures a.x + a.width <= ImageWidth && a.y + a.height <= ImageHeight
    ensures height % 4 == 0 && width % 16 == 0 && x % 16 == 0 && y % 2 == 0
            && height <= ImageHeight && width <= ImageWidth && x + width <= ImageWidth && y + height <= ImageHeight
            ==> a == Area(height, width, x, y)
  {
    var h := AtMost(AlignValue(height, 4), ImageHeight);
    var w := AtMost(AlignValue(width, 16), ImageWidth);
    var ax := AlignValue(x, 16);
    var ay := AlignValue(y, 2);
    MultipleDifference(ImageWidth, ax, 16);
    Area(if ay + h > ImageHeight then (ImageHeight - ay) - (ImageHeight - ay) % 4 else h,
         if ax + w > ImageWidth then ImageWidth - ax else w, ax, ay)
  }

  // ---------------------------------------------------------------- reading a document


  /** The number of items `_Load` expects over the seven sections. */
  const ItemCountCheck := 53

  /** The item count `_Load` adds up over the seven sections. */
  function Count(doc: Document): int
  {
    |ToObject(doc, CmdSetup)| + |ToObject(doc, CmdMeasure)| + |ToObject(doc, CmdProcessing)|
    + |ToObject(doc, DebugSettings)| + |ToObject(doc, Settings)| + |ToObject(doc, SettingsI)|
    + |ToObject(doc, CaptureSequence)|
  }

  function ParseSetup(o: Object): SetupConfig
  {
    SetupConfig(ToInt(o, SensorTemperature), ToInt(o, EFilter), ToInt(o, ENd), ToInt(o, EIris))
  }

  function ParseMeasure(o: Object): MeasureConfig
  {
    MeasureConfig(ToInt(o, ExposureTimeUs), ToInt(o, NbAcquisition), ToInt(o, BinningFactor), ToBool(o, BTestPattern))
  }

  function ParseProcessing(o: Object): P.ProcessingConfig
  {
    P.ProcessingConfig(ToBool(o, BBiasCompensation), ToBool(o, BSensorDefectCorrection),
                       ToBool(o, BSensorPrnuCorrection), ToBool(o, BLinearisation),
                       ToBool(o, BFlatField), ToBool(o, BAbsolute))
  }

  function ParseDebug(o: Object): ConoscopeDebugSettings
  {
    ConoscopeDebugSettings(ToBool(o, DebugMode), ToBool(o, EmulateCamera), ToText(o, DummyRawImagePath), ToBool(o, EmulateWheel))
  }

  /** The settings as `_Load` reads them, around a fitted AE area: exposure bounds clamped, the ROI kept inside the image. */
  function SettingsAround(o: Object, area: Area): ConoscopeSettings
  {
    var left := AtMost(ToInt(o, RoiXLeft), ImageSize);
    var right := AtMost(ToInt(o, RoiXRight), ImageSize);
    var top := AtMost(ToInt(o, RoiYTop), ImageSize);
    var bottom := AtMost(ToInt(o, RoiYBottom), ImageSize);
    ConoscopeSettings(ToText(o, CfgPath), ToText(o, CapturePath), ToText(o, FileNamePrepend), ToText(o, FileNameAppend),
             ToText(o, ExportFileNameFormat), ToInt(o, ExportFormat),
             Clamp(ToInt(o, AEMinExpoTimeUs), MinExposureUs, MaxExposureUs),
             Clamp(ToInt(o, AEMaxExpoTimeUs), MinExposureUs, MaxExposureUs),
             Clamp(ToInt(o, AEExpoTimeGranularityUs), 1, MaxExposureUs),
             Clamp(ToInt(o, AELevelPercent), 0, 100),
             area.height, area.width, area.x, area.y,
             ToBool(o, BUseRoi), left, if right < left then left else right,
             top, if bottom < top then top else bottom)
  }

  /** Lines 282-350 as written: the AE area fitted by `FitAreaAsWritten`. */
  function ParseSettingsAsWritten(o: Object): ConoscopeSettings
  {
    SettingsAround(o, FitAreaAsWritten(ToInt(o, AEMeasAreaHeight), ToInt(o, AEMeasAreaWidth), ToInt(o, AEMeasAreaX), ToInt(o, AEMeasAreaY)))
  }

  /** The settings with the AE area fitted by the corrected `FitArea`. */
  function ParseSettings(o: Object): ConoscopeSettings
  {
    SettingsAround(o, FitArea(ToInt(o, AEMeasAreaHeight), ToInt(o, AEMeasAreaWidth), ToInt(o, AEMeasAreaX), ToInt(o, AEMeasAreaY)))
  }

  /** Line 357 as written: the item is read under a key `_Save` never writes. */
  function ParseSettingsIAsWritten(o: Object): ConoscopeSettingsI
  {
    ConoscopeSettingsI(ToText(o, CfgFileName), ToBool(o, CfgFileIsZip), ToInt(o, CaptureSequenceMaxNbPixel))
  }

  /** The item read back under the key it is saved under. */
  function ParseSettingsI(o: Object): ConoscopeSettingsI
  {
    ConoscopeSettingsI(ToText(o, CfgFileName), ToBool(o, CfgFileIsZip), ToInt(o, AEMaxNbPixel))
  }

  function ParseCapture(o: Object): CaptureSequenceConfig
  {
    CaptureSequenceConfig(
      ToInt(o, SensorTemperature), ToBool(o, BWaitForSensorTemperature), ToInt(o, ENd), ToInt(o, EIris),
      Clamp(ToInt(o, ExposureTimeUs_FilterX), MinExposureUs, MaxExposureUs),
      Clamp(ToInt(o, ExposureTimeUs_FilterXz), MinExposureUs, MaxExposureUs),
      Clamp(ToInt(o, ExposureTimeUs_FilterYa), MinExposureUs, MaxExposureUs),
      Clamp(ToInt(o, ExposureTimeUs_FilterYb), MinExposureUs, MaxExposureUs),
      Clamp(ToInt(o, ExposureTimeUs_FilterZ), MinExposureUs, MaxExposureUs),
      ToInt(o, NbAcquisition), ToBool(o, BAutoExposure), ToBool(o, BUseExpoFile), ToBool(o, BSaveCapture))
  }

  /** A record of the seven sections, with the two sections the corrections touch given. */
  function RecordAround(doc: Document, settings: ConoscopeSettings, settingsI: ConoscopeSettingsI): Record
  {
    Record(ParseSetup(ToObject(doc, CmdSetup)), ParseMeasure(ToObject(doc, CmdMeasure)),
           ParseProcessing(ToObject(doc, CmdProcessing)), ParseDebug(ToObject(doc, DebugSettings)),
           settings, settingsI, ParseCapture(ToObject(doc, CaptureSequence)))
  }

  /** The record `_Load` builds, as written, from a document whose item count is right. */
  function ParsedAsWritten(doc: Document): Record
  {
    RecordAround(doc, ParseSettingsAsWritten(ToObject(doc, Settings)), ParseSettingsIAsWritten(ToObject(doc, SettingsI)))
  }

  /** The record `_Load` builds once the AE height is aligned after the cut and `AEMaxNbPixel` is read under its key. */
  function Parsed(doc: Document): Record
  {
    RecordAround(doc, ParseSettings(ToObject(doc, Settings)), ParseSettingsI(ToObject(doc, SettingsI)))
  }

  // ---------------------------------------------------------------- writing a document

  function SetupObject(c: SetupConfig): Object
  {
    map[SensorTemperature := JNumber(c.sensorTemperature), EFilter := JNumber(c.filter),
        ENd := JNumber(c.nd), EIris := JNumber(c.iris)]
  }

  function MeasureObject(c: MeasureConfig): Object
  {
    map[ExposureTimeUs := JNumber(c.exposureTimeUs), NbAcquisition := JNumber(c.nbAcquisition),
        BinningFactor := JNumber(c.binningFactor), BTestPattern := JBool(c.testPattern)]
  }

  function ProcessingObject(c: P.ProcessingConfig): Object
  {
    map[BBiasCompensation := JBool(c.biasCompensation), BSensorDefectCorrection := JBool(c.sensorDefectCorrection),
        BSensorPrnuCorrection := JBool(c.sensorPrnuCorrection), BLinearisation := JBool(c.linearisation),
        BFlatField := JBool(c.flatField), BAbsolute := JBool(c.absolute)]
  }

  function DebugObject(c: ConoscopeDebugSettings): Object
  {
    map[DebugMode := JBool(c.debugMode), EmulateCamera := JBool(c.emulateCamera),
        DummyRawImagePath := JString(c.dummyRawImagePath), EmulateWheel := JBool(c.emulateWheel)]
  }

  /** The settings section, written in three groups: paths and formats, auto-exposure, region of interest. */
  function SettingsObject(c: ConoscopeSettings): Object
  {
    SettingsFilesObject(c) + SettingsAeObject(c) + SettingsRoiObject(c)
  }

  function SettingsFilesObject(c: ConoscopeSettings): Object
  {
    map[CfgPath := JString(c.cfgPath), CapturePath := JString(c.capturePath),
        FileNamePrepend := JString(c.fileNamePrepend), FileNameAppend := JString(c.fileNameAppend),
        ExportFileNameFormat := JString(c.exportFileNameFormat), ExportFormat := JNumber(c.exportFormat)]
  }

  function SettingsAeObject(c: ConoscopeSettings): Object
  {
    map[AEMinExpoTimeUs := JNumber(c.aeMinExpoTimeUs), AEMaxExpoTimeUs := JNumber(c.aeMaxExpoTimeUs),
        AEExpoTimeGranularityUs := JNumber(c.aeExpoTimeGranularityUs), AELevelPercent := JNumber(c.aeLevelPercent),
        AEMeasAreaHeight := JNumber(c.aeMeasAreaHeight), AEMeasAreaWidth := JNumber(c.aeMeasAreaWidth),
        AEMeasAreaX := JNumber(c.aeMeasAreaX), AEMeasAreaY := JNumber(c.aeMeasAreaY)]
  }

  function SettingsRoiObject(c: ConoscopeSettings): Object
  {
    map[BUseRoi := JBool(c.useRoi), RoiXLeft := JNumber(c.roiXLeft), RoiXRight := JNumber(c.roiXRight),
        RoiYTop := JNumber(c.roiYTop), RoiYBottom := JNumber(c.roiYBottom)]
  }

  function SettingsIObject(c: ConoscopeSettingsI): Object
  {
    map[CfgFileName := JString(c.cfgFileName), CfgFileIsZip := JBool(c.cfgFileIsZip),
        AEMaxNbPixel := JNumber(c.aeMaxNbPixel)]
  }

  /** The capture-sequence section, written in three groups: sensor and wheels, exposures, flags. */
  function CaptureObject(c: CaptureSequenceConfig): Object
  {
    CaptureSetupObject(c) + CaptureExposureObject(c) + CaptureFlagsObject(c)
  }

  function CaptureSetupObject(c: CaptureSequenceConfig): Object
  {
    map[SensorTemperature := JNumber(c.sensorTemperature), BWaitForSensorTemperature := JBool(c.waitForSensorTemperature),
        ENd := JNumber(c.nd), EIris := JNumber(c.iris)]
  }

  function CaptureExposureObject(c: CaptureSequenceConfig): Object
  {
    map[ExposureTimeUs_FilterX := JNumber(c.exposureX), ExposureTimeUs_FilterXz := JNumber(c.exposureXz),
        ExposureTimeUs_FilterYa := JNumber(c.exposureYa), ExposureTimeUs_FilterYb := JNumber(c.exposureYb),
        ExposureTimeUs_FilterZ := JNumber(c.exposureZ)]
  }

  function CaptureFlagsObject(c: CaptureSequenceConfig): Object
  {
    map[NbAcquisition := JNumber(c.nbAcquisition), BAutoExposure := JBool(c.autoExposure),
        BUseExpoFile := JBool(c.useExpoFile), BSaveCapture := JBool(c.saveCapture)]
  }

  /** The file `_Save` writes. */
  function Saved(r: Record): Document
  {
    map[CmdSetup := JObject(SetupObject(r.setup)), CmdMeasure := JObject(MeasureObject(r.measure)),
        CmdProcessing := JObject(ProcessingObject(r.processing)), DebugSettings := JObject(DebugObject(r.debug)),
        Settings := JObject(SettingsObject(r.settings)), SettingsI := JObject(SettingsIObject(r.settingsI)),
        CaptureSequence := JObject(CaptureObject(r.capture))]
  }

  // ---------------------------------------------------------------- properties

  /** What `_Load` guarantees of the settings it keeps. */
  predicate NormalSettings(s: ConoscopeSettings)
  {
    && MinExposureUs <= s.aeMinExpoTimeUs <= MaxExposureUs && MinExposureUs <= s.aeMaxExpoTimeUs <= MaxExposureUs
    && 1 <= s.aeExpoTimeGranularityUs <= MaxExposureUs && 0 <= s.aeLevelPercent <= 100
    && s.aeMeasAreaHeight % 4 == 0 && s.aeMeasAreaWidth % 16 == 0 && s.aeMeasAreaX % 16 == 0 && s.aeMeasAreaY % 2 == 0
    && s.aeMeasAreaHeight <= ImageHeight && s.aeMeasAreaWidth <= ImageWidth
    && s.aeMeasAreaX + s.aeMeasAreaWidth <= ImageWidth && s.aeMeasAreaY + s.aeMeasAreaHeight <= ImageHeight
    && s.roiXLeft <= s.roiXRight <= ImageSize && s.roiYTop <= s.roiYBottom <= ImageSize
  }

  /** What `_Load` guarantees of the capture sequence it keeps. */
  predicate NormalCapture(c: CaptureSequenceConfig)
  {
    && MinExposureUs <= c.exposureX <= MaxExposureUs && MinExposureUs <= c.exposureXz <= MaxExposureUs
    && MinExposureUs <= c.exposureYa <= MaxExposureUs && MinExposureUs <= c.exposureYb <= MaxExposureUs
    && MinExposureUs <= c.exposureZ <= MaxExposureUs
  }

  /** What `_Load` guarantees of the record it keeps. */
  predicate Normal(r: Record)
  {
    NormalSettings(r.settings) && NormalCapture(r.capture)
  }

  /** Whatever the document holds, the loaded record keeps the clamp, alignment and ROI rules. */
  lemma ParsedIsNormal(doc: Document)
    ensures Normal(Parsed(doc))
  {
  }

  /** The seven sections of a saved document, each found under its label. */
  lemma DocumentSections(r: Record)
    ensures ToObject(Saved(r), CmdSetup) == SetupObject(r.setup)
    ensures ToObject(Saved(r), CmdMeasure) == MeasureObject(r.measure)
    ensures ToObject(Saved(r), CmdProcessing) == ProcessingObject(r.processing)
    ensures ToObject(Saved(r), DebugSettings) == DebugObject(r.debug)
    ensures ToObject(Saved(r), Settings) == SettingsObject(r.settings)
    ensures ToObject(Saved(r), SettingsI) == SettingsIObject(r.settingsI)
    ensures ToObject(Saved(r), CaptureSequence) == CaptureObject(r.capture)
  {
    var d := Saved(r);
    assert d[CmdSetup] == JObject(SetupObject(r.setup));
    assert d[CmdMeasure] == JObject(MeasureObject(r.measure));
    assert d[CmdProcessing] == JObject(ProcessingObject(r.processing));
    assert d[DebugSettings] == JObject(DebugObject(r.debug));
    assert d[Settings] == JObject(SettingsObject(r.settings));
    assert d[SettingsI] == JObject(SettingsIObject(r.settingsI));
    assert d[CaptureSequence] == JObject(CaptureObject(r.capture));
  }

  lemma DisjointUnionSize(a: Object, b: Object)
    requires a.Keys !! b.Keys
    ensures |a + b| == |a| + |b|
  {
    assert (a + b).Keys == a.Keys + b.Keys;
  }

  lemma DisjointUnion3Size(a: Object, b: Object, c: Object)
    requires a.Keys !! b.Keys && a.Keys !! c.Keys && b.Keys !! c.Keys
    ensures |a + b + c| == |a| + |b| + |c|
  {
    DisjointUnionSize(a, b);
    assert (a + b).Keys == a.Keys + b.Keys;
    DisjointUnionSize(a + b, c);
  }

  lemma FilesGroupSize(c: ConoscopeSettings)
    ensures |SettingsFilesObject(c)| == 6
  {
  }

  lemma AeGroupSize(c: ConoscopeSettings)
    ensures |SettingsAeObject(c)| == 8
  {
  }

  lemma RoiGroupSize(c: ConoscopeSettings)
    ensures |SettingsRoiObject(c)| == 5
  {
  }

  lemma FilesAeDisjoint(c: ConoscopeSettings)
    ensures SettingsFilesObject(c).Keys !! SettingsAeObject(c).Keys
  {
  }

  lemma FilesRoiDisjoint(c: ConoscopeSettings)
    ensures SettingsFilesObject(c).Keys !! SettingsRoiObject(c).Keys
  {
  }

  lemma AeRoiDisjoint(c: ConoscopeSettings)
    ensures SettingsAeObject(c).Keys !! SettingsRoiObject(c).Keys
  {
  }

  lemma SettingsObjectSize(c: ConoscopeSettings)
    ensures |SettingsObject(c)| == 19
  {
    FilesGroupSize(c);
    AeGroupSize(c);
    RoiGroupSize(c);
    FilesAeDisjoint(c);
    FilesRoiDisjoint(c);
    AeRoiDisjoint(c);
    DisjointUnion3Size(SettingsFilesObject(c), SettingsAeObject(c), SettingsRoiObject(c));
  }

  lemma CaptureGroupSizes(c: CaptureSequenceConfig)
    ensures |CaptureSetupObject(c)| == 4 && |CaptureExposureObject(c)| == 5 && |CaptureFlagsObject(c)| == 4
  {
  }

  lemma CaptureGroupsDisjoint(c: CaptureSequenceConfig)
    ensures CaptureSetupObject(c).Keys !! CaptureExposureObject(c).Keys
    ensures CaptureSetupObject(c).Keys !! CaptureFlagsObject(c).Keys
    ensures CaptureExposureObject(c).Keys !! CaptureFlagsObject(c).Keys
  {
  }

  lemma CaptureObjectSize(c: CaptureSequenceConfig)
    ensures |CaptureObject(c)| == 13
  {
    CaptureGroupSizes(c);
    CaptureGroupsDisjoint(c);
    DisjointUnion3Size(CaptureSetupObject(c), CaptureExposureObject(c), CaptureFlagsObject(c));
  }

  lemma SetupObjectSize(c: SetupConfig)
    ensures |SetupObject(c)| == 4
  {
  }

  lemma MeasureObjectSize(c: MeasureConfig)
    ensures |MeasureObject(c)| == 4
  {
  }

  lemma ProcessingObjectSize(c: P.ProcessingConfig)
    ensures |ProcessingObject(c)| == 6
  {
  }

  lemma DebugObjectSize(c: ConoscopeDebugSettings)
    ensures |DebugObject(c)| == 4
  {
  }

  lemma SettingsIObjectSize(c: ConoscopeSettingsI)
    ensures |SettingsIObject(c)| == 3
  {
  }

  /** The item count of a saved document, section by section. */
  lemma SavedCountBySection(r: Record)
    ensures Count(Saved(r)) == |SetupObject(r.setup)| + |MeasureObject(r.measure)| + |ProcessingObject(r.processing)|
                               + |DebugObject(r.debug)| + |SettingsObject(r.settings)| + |SettingsIObject(r.settingsI)|
                               + |CaptureObject(r.capture)|
  {
    DocumentSections(r);
  }

  /** A saved document has the item count `_Load` checks. */
  lemma SavedCount(r: Record)
    ensures Count(Saved(r)) == ItemCountCheck
  {
    SavedCountBySection(r);
    SettingsObjectSize(r.settings);
    CaptureObjectSize(r.capture);
    SetupObjectSize(r.setup);
    MeasureObjectSize(r.measure);
    ProcessingObjectSize(r.processing);
    DebugObjectSize(r.debug);
    SettingsIObjectSize(r.settingsI);
  }

  /** An item of the first group keeps its value in the whole settings object. */
  lemma InFilesGroup(c: ConoscopeSettings, k: Key)
    requires k in SettingsFilesObject(c)
    ensures k in SettingsObject(c) && SettingsObject(c)[k] == SettingsFilesObject(c)[k]
  {
    assert k !in SettingsAeObject(c);
    assert k !in SettingsRoiObject(c);
  }

  /** An item of the second group keeps its value in the whole settings object. */
  lemma InAeGroup(c: ConoscopeSettings, k: Key)
    requires k in SettingsAeObject(c)
    ensures k in SettingsObject(c) && SettingsObject(c)[k] == SettingsAeObject(c)[k]
  {
    assert k !in SettingsRoiObject(c);
  }

  lemma FilesGroupLookups(c: ConoscopeSettings)
    ensures var o := SettingsFilesObject(c);
      && ToText(o, CfgPath) == c.cfgPath && ToText(o, CapturePath) == c.capturePath
      && ToText(o, FileNamePrepend) == c.fileNamePrepend && ToText(o, FileNameAppend) == c.fileNameAppend
      && ToText(o, ExportFileNameFormat) == c.exportFileNameFormat && ToInt(o, ExportFormat) == c.exportFormat
  {
  }

  lemma AeGroupLookups(c: ConoscopeSettings)
    ensures var o := SettingsAeObject(c);
      && ToInt(o, AEMinExpoTimeUs) == c.aeMinExpoTimeUs && ToInt(o, AEMaxExpoTimeUs) == c.aeMaxExpoTimeUs
      && ToInt(o, AEExpoTimeGranularityUs) == c.aeExpoTimeGranularityUs && ToInt(o, AELevelPercent) == c.aeLevelPercent
      && ToInt(o, AEMeasAreaHeight) == c.aeMeasAreaHeight && ToInt(o, AEMeasAreaWidth) == c.aeMeasAreaWidth
      && ToInt(o, AEMeasAreaX) == c.aeMeasAreaX && ToInt(o, AEMeasAreaY) == c.aeMeasAreaY
  {
  }

  lemma SettingsFilesLookups(c: ConoscopeSettings)
    ensures var o := SettingsObject(c);
      && ToText(o, CfgPath) == c.cfgPath && ToText(o, CapturePath) == c.capturePath
      && ToText(o, FileNamePrepend) == c.fileNamePrepend && ToText(o, FileNameAppend) == c.fileNameAppend
      && ToText(o, ExportFileNameFormat) == c.exportFileNameFormat && ToInt(o, ExportFormat) == c.exportFormat
  {
    FilesGroupLookups(c);
    InFilesGroup(c, CfgPath);
    InFilesGroup(c, CapturePath);
    InFilesGroup(c, FileNamePrepend);
    InFilesGroup(c, FileNameAppend);
    InFilesGroup(c, ExportFileNameFormat);
    InFilesGroup(c, ExportFormat);
  }

  lemma SettingsAeLookups(c: ConoscopeSettings)
    ensures var o := SettingsObject(c);
      && ToInt(o, AEMinExpoTimeUs) == c.aeMinExpoTimeUs && ToInt(o, AEMaxExpoTimeUs) == c.aeMaxExpoTimeUs
      && ToInt(o, AEExpoTimeGranularityUs) == c.aeExpoTimeGranularityUs && ToInt(o, AELevelPercent) == c.aeLevelPercent
  {
    AeGroupLookups(c);
    InAeGroup(c, AEMinExpoTimeUs);
    InAeGroup(c, AEMaxExpoTimeUs);
    InAeGroup(c, AEExpoTimeGranularityUs);
    InAeGroup(c, AELevelPercent);
  }

  lemma SettingsAreaLookups(c: ConoscopeSettings)
    ensures var o := SettingsObject(c);
      && ToInt(o, AEMeasAreaHeight) == c.aeMeasAreaHeight && ToInt(o, AEMeasAreaWidth) == c.aeMeasAreaWidth
      && ToInt(o, AEMeasAreaX) == c.aeMeasAreaX && ToInt(o, AEMeasAreaY) == c.aeMeasAreaY
  {
    AeGroupLookups(c);
    InAeGroup(c, AEMeasAreaHeight);
    InAeGroup(c, AEMeasAreaWidth);
    InAeGroup(c, AEMeasAreaX);
    InAeGroup(c, AEMeasAreaY);
  }

  lemma RoiGroupLookups(c: ConoscopeSettings)
    ensures var o := SettingsRoiObject(c);
      && ToBool(o, BUseRoi) == c.useRoi && ToInt(o, RoiXLeft) == c.roiXLeft && ToInt(o, RoiXRight) == c.roiXRight
      && ToInt(o, RoiYTop) == c.roiYTop && ToInt(o, RoiYBottom) == c.roiYBottom
  {
  }

  /** An item of the last group keeps its value in the whole settings object. */
  lemma InRoiGroup(c: ConoscopeSettings, k: Key)
    requires k in SettingsRoiObject(c)
    ensures k in SettingsObject(c) && SettingsObject(c)[k] == SettingsRoiObject(c)[k]
  {
  }

  lemma SettingsRoiLookups(c: ConoscopeSettings)
    ensures var o := SettingsObject(c);
      && ToBool(o, BUseRoi) == c.useRoi && ToInt(o, RoiXLeft) == c.roiXLeft && ToInt(o, RoiXRight) == c.roiXRight
      && ToInt(o, RoiYTop) == c.roiYTop && ToInt(o, RoiYBottom) == c.roiYBottom
  {
    RoiGroupLookups(c);
    InRoiGroup(c, BUseRoi);
    InRoiGroup(c, RoiXLeft);
    InRoiGroup(c, RoiXRight);
    InRoiGroup(c, RoiYTop);
    InRoiGroup(c, RoiYBottom);
  }

  lemma SettingsRoundTrip(c: ConoscopeSettings)
    requires NormalSettings(c)
    ensures ParseSettings(SettingsObject(c)) == c
  {
    SettingsFilesLookups(c);
    SettingsAeLookups(c);
    SettingsAreaLookups(c);
    SettingsRoiLookups(c);
  }

  /** An item of the first group keeps its value in the whole capture-sequence object. */
  lemma InCaptureSetupGroup(c: CaptureSequenceConfig, k: Key)
    requires k in CaptureSetupObject(c)
    ensures k in CaptureObject(c) && CaptureObject(c)[k] == CaptureSetupObject(c)[k]
  {
    assert k !in CaptureExposureObject(c);
    assert k !in CaptureFlagsObject(c);
  }

  /** An item of the second group keeps its value in the whole capture-sequence object. */
  lemma InCaptureExposureGroup(c: CaptureSequenceConfig, k: Key)
    requires k in CaptureExposureObject(c)
    ensures k in CaptureObject(c) && CaptureObject(c)[k] == CaptureExposureObject(c)[k]
  {
    assert k !in CaptureFlagsObject(c);
  }

  /** An item of the last group keeps its value in the whole capture-sequence object. */
  lemma InCaptureFlagsGroup(c: CaptureSequenceConfig, k: Key)
    requires k in CaptureFlagsObject(c)
    ensures k in CaptureObject(c) && CaptureObject(c)[k] == CaptureFlagsObject(c)[k]
  {
  }

  lemma CaptureSetupLookups(c: CaptureSequenceConfig)
    ensures var o := CaptureObject(c);
      && ToInt(o, SensorTemperature) == c.sensorTemperature && ToBool(o, BWaitForSensorTemperature) == c.waitForSensorTemperature
      && ToInt(o, ENd) == c.nd && ToInt(o, EIris) == c.iris
  {
    InCaptureSetupGroup(c, SensorTemperature);
    InCaptureSetupGroup(c, BWaitForSensorTemperature);
    InCaptureSetupGroup(c, ENd);
    InCaptureSetupGroup(c, EIris);
  }

  lemma CaptureExposureLookups(c: CaptureSequenceConfig)
    ensures var o := CaptureObject(c);
      && ToInt(o, ExposureTimeUs_FilterX) == c.exposureX && ToInt(o, ExposureTimeUs_FilterXz) == c.exposureXz
      && ToInt(o, ExposureTimeUs_FilterYa) == c.exposureYa && ToInt(o, ExposureTimeUs_FilterYb) == c.exposureYb
      && ToInt(o, ExposureTimeUs_FilterZ) == c.exposureZ
  {
    InCaptureExposureGroup(c, ExposureTimeUs_FilterX);
    InCaptureExposureGroup(c, ExposureTimeUs_FilterXz);
    InCaptureExposureGroup(c, ExposureTimeUs_FilterYa);
    InCaptureExposureGroup(c, ExposureTimeUs_FilterYb);
    InCaptureExposureGroup(c, ExposureTimeUs_FilterZ);
  }

  lemma CaptureFlagsLookups(c: CaptureSequenceConfig)
    ensures var o := CaptureObject(c);
      && ToInt(o, NbAcquisition) == c.nbAcquisition && ToBool(o, BAutoExposure) == c.autoExposure
      && ToBool(o, BUseExpoFile) == c.useExpoFile && ToBool(o, BSaveCapture) == c.saveCapture
  {
    InCaptureFlagsGroup(c, NbAcquisition);
    InCaptureFlagsGroup(c, BAutoExposure);
    InCaptureFlagsGroup(c, BUseExpoFile);
    InCaptureFlagsGroup(c, BSaveCapture);
  }

  lemma CaptureRoundTrip(c: CaptureSequenceConfig)
    requires NormalCapture(c)
    ensures ParseCapture(CaptureObject(c)) == c
  {
    CaptureSetupLookups(c);
    CaptureExposureLookups(c);
    CaptureFlagsLookups(c);
  }

  lemma SetupRoundTrip(c: SetupConfig)
    ensures ParseSetup(SetupObject(c)) == c
  {
  }

  lemma MeasureRoundTrip(c: MeasureConfig)
    ensures ParseMeasure(MeasureObject(c)) == c
  {
  }

  lemma ProcessingRoundTrip(c: P.ProcessingConfig)
    ensures ParseProcessing(ProcessingObject(c)) == c
  {
  }

  lemma DebugRoundTrip(c: ConoscopeDebugSettings)
    ensures ParseDebug(DebugObject(c)) == c
  {
  }

  lemma SettingsIRoundTrip(c: ConoscopeSettingsI)
    ensures ParseSettingsI(SettingsIObject(c)) == c
  {
  }

  lemma ParsedSaved(r: Record)
    ensures Parsed(Saved(r)) == Record(
      ParseSetup(SetupObject(r.setup)), ParseMeasure(MeasureObject(r.measure)),
      ParseProcessing(ProcessingObject(r.processing)), ParseDebug(DebugObject(r.debug)),
      ParseSettings(SettingsObject(r.settings)), ParseSettingsI(SettingsIObject(r.settingsI)),
      ParseCapture(CaptureObject(r.capture)))
  {
    DocumentSections(r);
  }

  /** Saving a record that keeps the rules and loading it back gives the same record. */
  lemma LoadInvertsSave(r: Record)
    requires Normal(r)
    ensures Parsed(Saved(r)) == r
  {
    ParsedSaved(r);
    SetupRoundTrip(r.setup);
    MeasureRoundTrip(r.measure);
    ProcessingRoundTrip(r.processing);
    DebugRoundTrip(r.debug);
    SettingsIRoundTrip(r.settingsI);
    SettingsRoundTrip(r.settings);
    CaptureRoundTrip(r.capture);
  }

  /** As written, every saved `AEMaxNbPixel` reads back as 0. */
  lemma MaxNbPixelLostAsWritten(r: Record)
    ensures ParseSettingsIAsWritten(ToObject(Saved(r), SettingsI)).aeMaxNbPixel == 0
  {
  }

  /** The default ROI is wider than `_Load` allows, so a saved default record reloads with a clipped ROI. */
  lemma DefaultRoiClippedOnReload()
    ensures Parsed(Saved(Defaults)).settings.roiXRight == ImageSize < Defaults.settings.roiXRight
    ensures Parsed(Saved(Defaults)).settings.roiYBottom == ImageSize < Defaults.settings.roiYBottom
  {
    ParsedSaved(Defaults);
    SettingsRoiLookups(Defaults.settings);
  }

  /**
   * The loader as written differs from the corrected one in two fields only:
   * the AE height is the unaligned cut one, and `AEMaxNbPixel` is whatever the
   * document holds under `captureSequenceMaxNbPixel`.
   */
  lemma AsWrittenDiffersInTwoFields(doc: Document)
    ensures var o, oi := ToObject(doc, Settings), ToObject(doc, SettingsI);
            var p := Parsed(doc);
            ParsedAsWritten(doc) == p.(
              settings := p.settings.(aeMeasAreaHeight := FitAreaAsWritten(ToInt(o, AEMeasAreaHeight), ToInt(o, AEMeasAreaWidth),
                                                                          ToInt(o, AEMeasAreaX), ToInt(o, AEMeasAreaY)).height),
              settingsI := p.settingsI.(aeMaxNbPixel := ToInt(oi, CaptureSequenceMaxNbPixel)))
  {
  }

  /** As written, saving a record that keeps the rules and loading it back gives it back with `AEMaxNbPixel` set to 0. */
  lemma LoadAsWrittenLosesMaxNbPixel(r: Record)
    requires Normal(r)
    ensures ParsedAsWritten(Saved(r)) == r.(settingsI := r.settingsI.(aeMaxNbPixel := 0))
  {
    LoadInvertsSave(r);
    AsWrittenDiffersInTwoFields(Saved(r));
    DocumentSections(r);
    SettingsAreaLookups(r.settings);
    MaxNbPixelLostAsWritten(r);
  }

  // ---------------------------------------------------------------- the object

  /** The settings file as the constructor finds it. */
  datatype FileState = Missing | Unreadable | Stored(doc: Document)

  /** `ConoscopeConfig`: the record, the `bSaveConfig` switch, and the file behind them. */
  class Config {
    var record: Record
    var saveConfig: bool
    var file: FileState

    /** The constructor: the defaults, replaced by the stored record when the file is readable and complete. */
    constructor (found: FileState)
      ensures saveConfig
      ensures found.Stored? && Count(found.doc) == ItemCountCheck ==> record == ParsedAsWritten(found.doc) && file == found
      ensures found.Unreadable? ==> record == Defaults && file == found
      ensures found.Missing? || (found.Stored? && Count(found.doc) != ItemCountCheck) ==>
                record == Defaults && file == Stored(Saved(Defaults))
    {
      record := Defaults;
      saveConfig := true;
      file := found;
      new;
      Default();
      var res := false;
      if !found.Missing? {
        res := Load();
      }
      if !res {
        Default();
        Save();
      }
    }

    /** `_Default`. */
    method Default()
      modifies this
      ensures record == Defaults && saveConfig == old(saveConfig) && file == old(file)
    {
      record := Defaults;
    }

    /** `_Save`: the file holds the record. */
    method Save()
      modifies this
      ensures file == Stored(Saved(record)) && record == old(record) && saveConfig == old(saveConfig)
    {
      file := Stored(Saved(record));
    }

    /**
     * `_Load`: a stored file with the expected item count replaces the
     * record; a file that cannot be opened reports success and changes
     * nothing; a wrong count reports failure.
     */
    method Load() returns (res: bool)
      modifies this
      ensures file == old(file) && saveConfig == old(saveConfig)
      ensures !res <==> file.Stored? && Count(file.doc) != ItemCountCheck
      ensures file.Stored? && Count(file.doc) == ItemCountCheck ==> record == ParsedAsWritten(file.doc)
      ensures !(file.Stored? && Count(file.doc) == ItemCountCheck) ==> record == old(record)
    {
      res := true;
      if file.Stored? {
        if Count(file.doc) != ItemCountCheck {
          res := false;
        }
        if res {
          record := ParsedAsWritten(file.doc);
        }
      }
    }

    /** `SetConfig(SetupConfig_t&)`: stored and saved only while `bSaveConfig` is set. */
    method SetSetup(c: SetupConfig)
      modifies this
      ensures old(saveConfig) ==> record == old(record).(setup := c) && file == Stored(Saved(record))
      ensures !old(saveConfig) ==> record == old(record) && file == old(file)
      ensures saveConfig == old(saveConfig)
    {
      if saveConfig {
        record := record.(setup := c);
        Save();
      }
    }

    /** `SetConfig(MeasureConfig_t&)`. */
    method SetMeasure(c: MeasureConfig)
      modifies this
      ensures old(saveConfig) ==> record == old(record).(measure := c) && file == Stored(Saved(record))
      ensures !old(saveConfig) ==> record == old(record) && file == old(file)
      ensures saveConfig == old(saveConfig)
    {
      if saveConfig {
        record := record.(measure := c);
        Save();
      }
    }

    /** `SetConfig(MeasureConfigWithCropFactor_t&)`: `CopyMeasureConfig` drops the crop area. */
    method SetMeasureWithCropFactor(c: MeasureConfig, cropArea: Area)
      modifies this
      ensures old(saveConfig) ==> record == old(record).(measure := c) && file == Stored(Saved(record))
      ensures !old(saveConfig) ==> record == old(record) && file == old(file)
      ensures saveConfig == old(saveConfig)
    {
      if saveConfig {
        record := record.(measure := MeasureConfig(c.exposureTimeUs, c.nbAcquisition, c.binningFactor, c.testPattern));
        Save();
      }
    }

    /** `SetConfig(ProcessingConfig_t&)`. */
    method SetProcessing(c: P.ProcessingConfig)
      modifies this
      ensures old(saveConfig) ==> record == old(record).(processing := c) && file == Stored(Saved(record))
      ensures !old(saveConfig) ==> record == old(record) && file == old(file)
      ensures saveConfig == old(saveConfig)
    {
      if saveConfig {
        record := record.(processing := c);
        Save();
      }
    }

    /** `SetConfig(ConoscopeDebugSettings_t&)`. */
    method SetDebug(c: ConoscopeDebugSettings)
      modifies this
      ensures old(saveConfig) ==> record == old(record).(debug := c) && file == Stored(Saved(record))
      ensures !old(saveConfig) ==> record == old(record) && file == old(file)
      ensures saveConfig == old(saveConfig)
    {
      if saveConfig {
        record := record.(debug := c);
        Save();
      }
    }

    /** `SetConfig(ConoscopeSettings_t&)`: stored as given; only the next `_Load` clamps it. */
    method SetSettings(c: ConoscopeSettings)
      modifies this
      ensures old(saveConfig) ==> record == old(record).(settings := c) && file == Stored(Saved(record))
      ensures !old(saveConfig) ==> record == old(record) && file == old(file)
      ensures saveConfig == old(saveConfig)
    {
      if saveConfig {
        record := record.(settings := c);
        Save();
      }
    }

    /** `SetConfig(CaptureSequenceConfig_t&)`. */
    method SetCaptureSequence(c: CaptureSequenceConfig)
      modifies this
      ensures old(saveConfig) ==> record == old(record).(capture := c) && file == Stored(Saved(record))
      ensures !old(saveConfig) ==> record == old(record) && file == old(file)
      ensures saveConfig == old(saveConfig)
    {
      if saveConfig {
        record := record.(capture := c);
        Save();
      }
    }
  }

  /**
   * A record that keeps the load rules saves a file that passes the item
   * count check and that the corrected loader reads back as the same record.
   */
  lemma StoredRecordReloads(r: Record)
    requires Normal(r)
    ensures Count(Saved(r)) == ItemCountCheck && Parsed(Saved(r)) == r
  {
    SavedCount(r);
    LoadInvertsSave(r);
  }
}
