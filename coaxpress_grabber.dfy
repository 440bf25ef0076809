/*
 * The CoaXPress grabber: exposure and frame-period arithmetic, capture
 * timeouts, firmware file-transfer chunking, pixel-format names and the
 * acquisition loop. Register accesses of the frame grabber SDK are
 * recorded; values read back from the camera are parameters.
 */
module CoaXpressGrabber {
  import F = CoaXpressFrame
  import C = Common

  const ExposureTimeMin: int := 100
  const ProcessingTimeUs: int := 100000
  const SensorLagUs: int := 1000
  const MaxAcquisitionFramePeriod: int := 1000000
  const CaptureTimeoutFactor: int := 10
  const PacketSizeV10: int := 168
  const PacketSizeV11: int := 1000
  const PacketAlignment: int := 4
  const OffsetRetryMax: int := 10
  /** Sensor size used when the requested area reaches the sensor's border. */
  const SensorWidth: int := 8112
  const SensorHeight: int := 6048

  function Max(a: int, b: int): int
  {
    if a >= b then a else b
  }

  /** The exposure `Configure` uses: at least 100 us. */
  function Exposure(requestedUs: int): (e: int)
    ensures e >= ExposureTimeMin
    ensures requestedUs >= ExposureTimeMin ==> e == requestedUs
    ensures requestedUs < ExposureTimeMin ==> e == ExposureTimeMin
  {
    if requestedUs >= ExposureTimeMin then requestedUs else ExposureTimeMin
  }

  /** The acquisition frame period: longer than the exposure, the processing time and the link's minimum, plus the sensor lag; capped on Adimec cameras. */
  function FramePeriod(exposureUs: int, periodMin: int, manufacturer: F.Manufacturer): (p: int)
    ensures manufacturer != F.Adimec ==>
      && p >= exposureUs + SensorLagUs && p >= ProcessingTimeUs + SensorLagUs && p >= periodMin + SensorLagUs
      && (p == exposureUs + SensorLagUs || p == ProcessingTimeUs + SensorLagUs || p == periodMin + SensorLagUs)
    ensures manufacturer == F.Adimec ==>
      p == if Max(Max(exposureUs, ProcessingTimeUs), periodMin) + SensorLagUs > MaxAcquisitionFramePeriod
           then MaxAcquisitionFramePeriod else Max(Max(exposureUs, ProcessingTimeUs), periodMin) + SensorLagUs
    ensures manufacturer == F.Adimec ==> p <= MaxAcquisitionFramePeriod
  {
    var base := Max(Max(exposureUs, ProcessingTimeUs), periodMin) + SensorLagUs;
    if manufacturer == F.Adimec && base > MaxAcquisitionFramePeriod then MaxAcquisitionFramePeriod else base
  }

  /** The minimum frame period `DetectCamera` sets for a Critical Link camera, from the link configuration. */
  function FramePeriodMin(connection: string, modelName: string): (p: int)
    ensures connection == "CXP6_X4" ==> p == 50000
    ensures connection == "CXP6_X2" ==> p == (if modelName == "CMV8000_CXP" then 200000 else 100000)
    ensures connection != "CXP6_X4" && connection != "CXP6_X2" ==> p == 1000000
  {
    if connection == "CXP6_X4" then 50000
    else if connection == "CXP6_X2" then (if modelName == "CMV8000_CXP" then 200000 else 100000)
    else 1000000
  }

  /** `GetCurrentCaptureTimeoutSteps`: how many waits of `stepMs` cover ten frame periods. */
  function TimeoutSteps(framePeriodUs: int, stepMs: int): (n: int)
    requires framePeriodUs >= 0 && stepMs > 0
    ensures n >= 1
    ensures n * stepMs >= (framePeriodUs * CaptureTimeoutFactor) / 1000
    ensures (n - 1) * stepMs <= (framePeriodUs * CaptureTimeoutFactor) / 1000
  {
    var t := (framePeriodUs * CaptureTimeoutFactor) / 1000;
    if t > stepMs then (t + stepMs) / stepMs else 1
  }

  /** `SetCameraConstants`: the I2C address table index; only Critical Link cameras depend on the firmware (1.15043 and later use index 1). */
  function I2cAddressIndex(manufacturer: F.Manufacturer, major: int, minor: int, current: int): (i: int)
    ensures manufacturer != F.CriticalLink ==> i == current
    ensures manufacturer == F.CriticalLink ==> (i == 1 <==> (major > 1 || (major == 1 && minor >= 15043)))
    ensures manufacturer == F.CriticalLink ==> (i == 0 || i == 1)
  {
    if manufacturer != F.CriticalLink then current
    else if major < 1 || (major == 1 && minor < 15043) then 0 else 1
  }

  /** The pixel-format names `UpdateFrameSize` recognises. */
  function PixelFormatOf(name: string): (f: F.PixelFormat)
    ensures f == F.Mono8 <==> name == "Mono8"
    ensures f == F.Mono10 <==> name == "Mono10"
    ensures f == F.Mono12 <==> (name == "Mono12" || name == "Mono12p")
  {
    if name == "Mono8" then F.Mono8
    else if name == "Mono10" then F.Mono10
    else if name == "Mono12" || name == "Mono12p" then F.Mono12
    else F.UnknownFormat
  }

  /** The size actually written for the last chunk: rounded up to a multiple of four bytes. */
  function Aligned(size: int): (a: int)
    ensures a % PacketAlignment == 0 && size <= a < size + PacketAlignment
  {
    if size % PacketAlignment != 0 then size + (PacketAlignment - size % PacketAlignment) else size
  }

  /** The number of packets `FileTransferWrite` sends for `size` bytes. */
  function Packets(size: nat, packetSize: int): (n: nat)
    requires packetSize > 0
    ensures size == 0 <==> n == 0
    ensures n > 0 ==> (n - 1) * packetSize < size <= n * packetSize
  {
    if size == 0 then 0 else (size + packetSize - 1) / packetSize
  }

  /** `FwUpdateConfigure`: the progress step size and the number of progress events announced. */
  function ProgressPlan(size: nat, packetSize: int): (r: (int, int))
    requires packetSize > 0
    ensures r.0 >= 1 && 1 <= r.1 <= 200
  {
    var nbSteps := size / packetSize + 1;
    if nbSteps > 100 then
      var step := nbSteps / 100;
      assert nbSteps / step <= 199 by { StepsBound(nbSteps, step); }
      (step, nbSteps / step + 1)
    else (1, nbSteps)
  }

  lemma StepsBound(n: int, step: int)
    requires n > 100 && step == n / 100
    ensures step >= 1 && n / step <= 199
  {
    assert n == 100 * step + n % 100;
    if step == 1 {
    } else {
      assert n < 100 * step + 100 <= 199 * step;
      DivLess(n, step, 199);
    }
  }

  lemma DivLess(n: int, d: int, m: int)
    requires d > 0 && 0 <= n < m * d
    ensures n / d < m
  {
  }

  /** The transfer emits one progress event every `step` packets; the announced count is never exceeded. */
  lemma ProgressWithinPlan(size: nat, packetSize: int)
    requires packetSize > 0
    ensures Packets(size, packetSize) / ProgressPlan(size, packetSize).0 <= ProgressPlan(size, packetSize).1
  {
    var n := size / packetSize + 1;
    var loops := Packets(size, packetSize);
    assert loops <= n by {
      if size > 0 {
        assert (loops - 1) * packetSize < size;
        DivLess(size, packetSize, n) by {
          assert size == packetSize * (size / packetSize) + size % packetSize;
        }
        assert (loops - 1) * packetSize <= (n - 1) * packetSize + size % packetSize;
        MulMonotone(loops - 1, n - 1, packetSize, size % packetSize);
      }
    }
    var step := ProgressPlan(size, packetSize).0;
    DivMonotone(loops, n, step);
  }

  lemma MulMonotone(a: int, b: int, p: int, r: int)
    requires p > 0 && 0 <= r < p && a * p <= b * p + r
    ensures a <= b
  {
    if a > b {
      C.MulAtLeast(a - b, p);
      assert false;
    }
  }

  lemma DivMonotone(a: int, b: int, d: int)
    requires 0 <= a <= b && d > 0
    ensures a / d <= b / d
  {
    var qa, qb := a / d, b / d;
    assert a == d * qa + a % d;
    assert b == d * qb + b % d;
    if qa > qb {
      C.MulAtLeast(qa - qb, d);
      assert false;
    }
  }

  /**
   * One packet write with its offset check: repeated while the device's
   * file offset does not advance, until it does or ten attempts have failed
   * in a row. `advanced[k]` says whether attempt k moved the offset.
   */
  method WritePacket(advanced: seq<bool>) returns (ok: bool, attempts: nat)
    requires |advanced| >= OffsetRetryMax
    ensures 1 <= attempts <= OffsetRetryMax
    ensures ok <==> true in advanced[..OffsetRetryMax]
    ensures ok ==> advanced[attempts - 1] && !(true in advanced[..attempts - 1])
  {
    ok := advanced[0];
    attempts := 1;
    var retry := if ok then 0 else 1;
    while retry > 0 && retry < OffsetRetryMax
      invariant 1 <= attempts <= OffsetRetryMax
      invariant retry == (if ok then 0 else attempts)
      invariant ok == advanced[attempts - 1]
      invariant !(true in advanced[..attempts - 1])
      decreases OffsetRetryMax - attempts
    {
      assert advanced[..attempts] == advanced[..attempts - 1] + [advanced[attempts - 1]];
      ok := advanced[attempts];
      attempts := attempts + 1;
      retry := if ok then 0 else retry + 1;
    }
    assert advanced[..attempts] == advanced[..attempts - 1] + [advanced[attempts - 1]];
    assert advanced[..OffsetRetryMax] == advanced[..attempts] + advanced[attempts..OffsetRetryMax];
    if ok {
      assert advanced[attempts - 1] in advanced[..OffsetRetryMax];
    }
  }


  /**
   * `FileTransferWrite`: full packets while more than a packet remains, then
   * the rest rounded up to four bytes. Returns the sizes written; a packet
   * whose offset never advances stops the transfer with `ok` false.
   */
  method FileTransferWrite(size: nat, packetSize: int, advanced: seq<seq<bool>>) returns (sizes: seq<int>, ok: bool)
    requires packetSize > 0
    requires |advanced| >= Packets(size, packetSize)
    requires forall k :: 0 <= k < |advanced| ==> |advanced[k]| >= OffsetRetryMax
    ensures |sizes| <= Packets(size, packetSize)
    ensures forall k :: 0 <= k < |sizes| - 1 ==> sizes[k] == packetSize
    ensures ok <==> |sizes| == Packets(size, packetSize)
    ensures ok && size > 0 ==> sizes[|sizes| - 1] == Aligned(size - C.Sum(sizes[..|sizes| - 1]))
    ensures ok ==> size <= C.Sum(sizes) < size + PacketAlignment
  {
    var remaining := size;
    sizes := [];
    ok := true;
    ghost var total := Packets(size, packetSize);
    while remaining > 0
      invariant 0 <= remaining == size - C.Sum(sizes)
      invariant forall k :: 0 <= k < |sizes| ==> sizes[k] == packetSize
      invariant remaining > 0 ==> Packets(remaining, packetSize) == total - |sizes|
      invariant remaining == 0 ==> sizes == [] && size == 0
      decreases remaining
    {
      var written, _ := WritePacket(advanced[|sizes|]);
      if remaining > packetSize {
        if !written {
          ok := false;
          return;
        }
        C.SumAppend(sizes, packetSize);
        PacketsStep(remaining - packetSize, packetSize);
        sizes := sizes + [packetSize];
        remaining := remaining - packetSize;
      } else {
        var chunk := Aligned(remaining);
        PacketsOne(remaining, packetSize);
        if !written {
          ok := false;
          return;
        }
        C.SumAppend(sizes, chunk);
        assert (sizes + [chunk])[..|sizes|] == sizes;
        sizes := sizes + [chunk];
        return;
      }
    }
  }

  lemma PacketsStep(r: nat, p: int)
    requires p > 0 && r > 0
    ensures Packets(r + p, p) == Packets(r, p) + 1
  {
    assert (r + p + p - 1) / p == (r + p - 1) / p + 1 by {
      DivShift(r + p - 1, p);
    }
  }

  lemma PacketsOne(r: nat, p: int)
    requires 0 < r <= p
    ensures Packets(r, p) == 1
  {
    C.DivUnique(r + p - 1, p, 1, r - 1);
  }

  lemma DivShift(a: int, p: int)
    requires p > 0 && a >= 0
    ensures (a + p) / p == a / p + 1
  {
    assert a == p * (a / p) + a % p;
    C.DivUnique(a + p, p, a / p + 1, a % p);
  }

  datatype Rect = Rect(x: int, y: int, width: int, height: int)

  datatype Config = Config(exposureUs: int, acquisitionNumber: int, dimensions: Rect, testPattern: bool)

  /** A register write through the SDK: its name and value. */
  datatype Write = Write(register: string, value: int)

  /** The area a Critical Link camera delivers: the whole sensor once the request reaches its border, the requested rectangle otherwise. */
  function SensorArea(f: F.Feature, d: Rect): (r: F.Feature)
    ensures r.format == f.format && r.manufacturer == f.manufacturer
    ensures d.height >= 6004 || d.width >= 7920 ==> r.width == SensorWidth && r.height == SensorHeight && r.offsetX == 0 && r.offsetY == 0
    ensures !(d.height >= 6004 || d.width >= 7920) ==> r.width == d.width && r.height == d.height && r.offsetX == d.x && r.offsetY == d.y
  {
    if d.height >= 6004 || d.width >= 7920 then f.(width := SensorWidth, height := SensorHeight, offsetX := 0, offsetY := 0)
    else f.(width := d.width, height := d.height, offsetX := d.x, offsetY := d.y)
  }

  class Grabber {
    var manufacturer: F.Manufacturer
    var config: Config
    var currentPeriod: int
    var periodMin: int
    /** mImageFeature: the area the camera delivers. */
    var feature: F.Feature
    var acquisitionCount: int
    var currentFrameIndex: int
    var i2cAddressIndex: int
    var writes: seq<Write>
    /** Whether the Critical Link sensor test pattern is switched on. */
    var testPatternOn: bool
    /** How many buffers the acquisition loop has handed to the frame store. */
    var appended: nat

    constructor (m: F.Manufacturer, minPeriod: int)
      ensures manufacturer == m && periodMin == minPeriod && acquisitionCount == 0
      ensures i2cAddressIndex == 0 && writes == [] && appended == 0
    {
      manufacturer := m;
      config := Config(0, 1, Rect(0, 0, 0, 0), false);
      currentPeriod := 0;
      periodMin := minPeriod;
      feature := F.Feature(0, 0, 0, 0, F.UnknownFormat, m);
      acquisitionCount := 0;
      currentFrameIndex := 0;
      i2cAddressIndex := 0;
      writes := [];
      testPatternOn := false;
      appended := 0;
    }

    method SetCameraConstants(major: int, minor: int)
      modifies this`i2cAddressIndex
      ensures i2cAddressIndex == I2cAddressIndex(manufacturer, major, minor, old(i2cAddressIndex))
    {
      if manufacturer == F.CriticalLink {
        if major < 1 || (major == 1 && minor < 15043) {
          i2cAddressIndex := 0;
        } else {
          i2cAddressIndex := 1;
        }
      }
    }

    /**
     * `Configure`: stores the configuration as given, then returns it with
     * the exposure raised to the minimum (the caller's copy is updated in
     * place), and programs period, geometry and exposure.
     */
    method Configure(cfg: Config) returns (updated: Config)
      modifies this`config, this`currentPeriod, this`feature, this`writes, this`testPatternOn
      ensures config == cfg
      ensures updated == cfg.(exposureUs := Exposure(cfg.exposureUs))
      ensures currentPeriod == FramePeriod(Exposure(cfg.exposureUs), periodMin, manufacturer)
      ensures manufacturer == F.CriticalLink ==> feature == SensorArea(old(feature), cfg.dimensions)
      ensures manufacturer != F.CriticalLink ==> feature == old(feature)
      ensures manufacturer == F.CriticalLink ==> testPatternOn == cfg.testPattern
      ensures manufacturer != F.CriticalLink ==> testPatternOn == old(testPatternOn)
      ensures |writes| > |old(writes)| && writes[..|old(writes)|] == old(writes)
      ensures writes[|writes| - 1] == Write("ExposureTime", Exposure(cfg.exposureUs))
    {
      config := cfg;
      var exposureTimeUs := ExposureTimeMin;
      updated := cfg;
      if cfg.exposureUs >= exposureTimeUs {
        exposureTimeUs := cfg.exposureUs;
      } else {
        updated := cfg.(exposureUs := exposureTimeUs);
      }
      currentPeriod := if exposureTimeUs > ProcessingTimeUs then exposureTimeUs else ProcessingTimeUs;
      currentPeriod := if currentPeriod < periodMin then periodMin else currentPeriod;
      currentPeriod := currentPeriod + SensorLagUs;
      ProgramCamera(cfg);
      writes := writes + [Write("ExposureTime", exposureTimeUs)];
    }

    /** The manufacturer-specific part of `Configure`: the period cap, the test pattern and the geometry. */
    method ProgramCamera(cfg: Config)
      modifies this`currentPeriod, this`feature, this`writes, this`testPatternOn
      ensures manufacturer == F.Adimec && old(currentPeriod) > MaxAcquisitionFramePeriod ==> currentPeriod == MaxAcquisitionFramePeriod
      ensures !(manufacturer == F.Adimec && old(currentPeriod) > MaxAcquisitionFramePeriod) ==> currentPeriod == old(currentPeriod)
      ensures manufacturer == F.CriticalLink ==> feature == SensorArea(old(feature), cfg.dimensions)
      ensures manufacturer != F.CriticalLink ==> feature == old(feature)
      ensures manufacturer == F.CriticalLink ==> testPatternOn == cfg.testPattern
      ensures manufacturer != F.CriticalLink ==> testPatternOn == old(testPatternOn)
      ensures |writes| >= |old(writes)| && writes[..|old(writes)|] == old(writes)
    {
      var d := cfg.dimensions;
      match manufacturer {
        case Adimec =>
          if currentPeriod > MaxAcquisitionFramePeriod {
            currentPeriod := MaxAcquisitionFramePeriod;
          }
          writes := writes + [Write("AcquisitionFramePeriod", currentPeriod), Write("Width", d.width),
                              Write("Height", d.height), Write("OffsetX", d.x), Write("OffsetY", d.y)];
        case CriticalLink =>
          writes := writes + [Write("MSRM_Int_AcquisitionFrameInterval", currentPeriod)];
          testPatternOn := cfg.testPattern;
          if d.height >= 6004 || d.width >= 7920 {
            feature := feature.(width := SensorWidth, height := SensorHeight, offsetX := 0, offsetY := 0);
            writes := writes + [Write("OffsetX", 0), Write("OffsetY", 0),
                                Write("Width", SensorWidth), Write("Height", SensorHeight)];
          } else {
            writes := writes + [Write("Width", d.width), Write("Height", d.height),
                                Write("OffsetX", d.x), Write("OffsetY", d.y)];
            feature := feature.(width := d.width, height := d.height, offsetX := d.x, offsetY := d.y);
          }
        case UnknownManufacturer =>
      }
    }

    method GetCurrentCaptureTimeoutSteps(stepMs: int) returns (n: int)
      requires currentPeriod >= 0 && stepMs > 0
      ensures n == TimeoutSteps(currentPeriod, stepMs)
    {
      var timeout := (currentPeriod * CaptureTimeoutFactor) / 1000;
      if timeout > stepMs {
        timeout := (timeout + stepMs) / stepMs;
      } else {
        timeout := 1;
      }
      n := timeout;
    }

    /**
     * `UpdateFrameSize`: the delivered area is cleared and the format taken
     * from the camera's pixel-format name; returns the feature the frame
     * store is sized with, which is the whole sensor.
     */
    method UpdateFrameSize(pixelFormat: string, sensorWidth: int, sensorHeight: int) returns (frame: F.Feature)
      modifies this`feature
      ensures feature == F.Feature(0, 0, 0, 0, PixelFormatOf(pixelFormat), manufacturer)
      ensures frame == F.Feature(sensorWidth, sensorHeight, 0, 0, PixelFormatOf(pixelFormat), manufacturer)
    {
      feature := F.Feature(0, 0, 0, 0, PixelFormatOf(pixelFormat), manufacturer);
      frame := F.Feature(sensorWidth, sensorHeight, 0, 0, feature.format, feature.manufacturer);
    }

    /**
     * `Start`: arms an acquisition only when none is counting; an argument
     * of 0 takes the configured number. Each grabbed buffer is appended to
     * the frame store and the count runs down to 0.
     */
    method Start(acquisitionNumber: int) returns (res: bool)
      requires acquisitionCount != 0 || (if acquisitionNumber == 0 then config.acquisitionNumber else acquisitionNumber) >= 1
      modifies this`acquisitionCount, this`currentFrameIndex, this`appended
      ensures res <==> old(acquisitionCount) == 0
      ensures res ==> acquisitionCount == 0 && currentFrameIndex == F.GetImageIndex()
      ensures res ==> appended == old(appended) + (if acquisitionNumber == 0 then config.acquisitionNumber else acquisitionNumber)
      ensures !res ==> acquisitionCount == old(acquisitionCount) && appended == old(appended)
    {
      var n := acquisitionNumber;
      if n == 0 {
        n := config.acquisitionNumber;
      }
      res := false;
      if acquisitionCount == 0 {
        acquisitionCount := n;
        currentFrameIndex := F.GetImageIndex();
        acquisitionCount := n;
        while true
          invariant 1 <= acquisitionCount <= n && currentFrameIndex == F.GetImageIndex()
          invariant appended == old(appended) + (n - acquisitionCount)
          decreases acquisitionCount
        {
          appended := appended + 1;
          acquisitionCount := acquisitionCount - 1;
          if acquisitionCount == 0 {
            break;
          }
        }
        res := true;
      }
    }
  }
}
