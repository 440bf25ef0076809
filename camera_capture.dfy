/*
 * CameraCmvCxp: the CoaXPress camera driver's connection state and its
 * capture-status machine (Ready, MeasurementPending, MeasurementDone,
 * Fault, NotInitialised). The grabber is an oracle: whether it exists, what
 * `Start` answers and which frame index it reports are parameters.
 */
module CameraCmvCxp {
  import C = Common

  /** Camera::Status. */
  datatype Status = Ready | MeasurementPending | MeasurementDone | Fault | Connected | NotInitialised | Invalid

  datatype ConnectionState = NotConnected | CameraConnected

  datatype CameraModel = CmvCxp8k | CmvCxp50k | Adimec50k

  datatype Option<T> = None | Some(value: T)

  const InvalidFrameIndex: int := -1

  /** The capture status, the current frame index, and whether a grabber exists. */
  datatype Capture = Capture(status: Status, frameIndex: int, hasGrabber: bool)

  /** `onFrameCaptured`: only a pending measurement takes the frame. */
  function FrameCaptured(c: Capture, frameIndex: int): (r: Capture)
    ensures c.status == MeasurementPending ==> r == Capture(MeasurementDone, frameIndex, c.hasGrabber)
    ensures c.status != MeasurementPending ==> r == c
  {
    if c.status == MeasurementPending then c.(status := MeasurementDone, frameIndex := frameIndex) else c
  }

  /** `StartMeasurement`; with the grabber's `Start` answering `started`, the capture is complete on return. */
  function StartMeasurement(c: Capture, started: bool, grabberFrameIndex: int): (r: (Capture, C.Error))
    ensures r.1 == C.Ok <==> c.status == Ready && c.hasGrabber
    ensures r.1 != C.Ok ==> r == (c, C.InvalidState)
    ensures r.1 == C.Ok && started ==> r.0 == Capture(MeasurementDone, grabberFrameIndex, true)
    ensures r.1 == C.Ok && !started ==> r.0 == Capture(MeasurementPending, c.frameIndex, true)
  {
    if c.status == Ready && c.hasGrabber then
      var pending := c.(status := MeasurementPending);
      (if started then FrameCaptured(pending, grabberFrameIndex) else pending, C.Ok)
    else (c, C.InvalidState)
  }

  /** `StopMeasurement`: any status other than Ready goes back to Ready, given a grabber. */
  function StopMeasurement(c: Capture): (r: (Capture, C.Error))
    ensures r.1 == C.Ok <==> c.status != Ready && c.hasGrabber
    ensures r.1 == C.Ok ==> r.0 == c.(status := Ready)
    ensures r.1 != C.Ok ==> r == (c, C.InvalidState)
  {
    if c.status != Ready && c.hasGrabber then (c.(status := Ready), C.Ok) else (c, C.InvalidState)
  }

  /** `Configure`: a stop is attempted first, then the configuration is applied only in Ready. */
  function Configure(c: Capture): (r: (Capture, C.Error))
    ensures r.1 == C.Ok <==> c.hasGrabber || c.status == Ready
    ensures r.1 == C.Ok ==> r.0.status == Ready
  {
    var stopped := StopMeasurement(c).0;
    (stopped, if stopped.status == Ready then C.Ok else C.InvalidState)
  }

  /** `GetRawData`: a finished measurement with a valid index is handed out and the camera is Ready again. */
  function GetRawData(c: Capture): (r: (Capture, C.Error))
    ensures c.status != MeasurementDone ==> r == (c, C.InvalidState)
    ensures c.status == MeasurementDone && c.frameIndex != InvalidFrameIndex ==>
      r == (Capture(Ready, InvalidFrameIndex, c.hasGrabber), C.Ok)
    ensures c.status == MeasurementDone && c.frameIndex == InvalidFrameIndex ==>
      r == (c.(status := Fault), C.InvalidParameter)
  {
    if c.status != MeasurementDone then (c, C.InvalidState)
    else if c.frameIndex != InvalidFrameIndex then (Capture(Ready, InvalidFrameIndex, c.hasGrabber), C.Ok)
    else (c.(status := Fault), C.InvalidParameter)
  }

  /** A measurement started from Ready and read back leaves the camera Ready for the next one. */
  lemma MeasurementCycle(c: Capture, grabberFrameIndex: int)
    requires c.status == Ready && c.hasGrabber && grabberFrameIndex != InvalidFrameIndex
    ensures var s := StartMeasurement(c, true, grabberFrameIndex);
      && s.1 == C.Ok
      && GetRawData(s.0) == (Capture(Ready, InvalidFrameIndex, true), C.Ok)
  {
  }

  /** Data can be read only once per measurement. */
  lemma RawDataOnce(c: Capture)
    requires GetRawData(c).1 == C.Ok
    ensures GetRawData(GetRawData(c).0).1 == C.InvalidState
  {
  }

  /** `GetCameraModel`; a vendor that is neither CriticalLink nor Adimec leaves the model unset. */
  function CameraModelOf(vendor: string, modelName: string): (m: Option<CameraModel>)
    ensures m == Some(CmvCxp8k) <==> vendor == "CriticalLink" && modelName == "CMV8000_CXP"
    ensures m == Some(CmvCxp50k) <==> vendor == "CriticalLink" && modelName != "CMV8000_CXP"
    ensures m == Some(Adimec50k) <==> vendor == "Adimec"
  {
    if vendor == "CriticalLink" then (if modelName == "CMV8000_CXP" then Some(CmvCxp8k) else Some(CmvCxp50k))
    else if vendor == "Adimec" then Some(Adimec50k)
    else None
  }

  /** The firmware types `FwUpdate` knows. */
  function FirmwareTypes(): set<string> { {"FPGA", "NIOS"} }

  /** (register, value) writes of `HW_Set_FanSpeed`. */
  type Write = (string, int)

  function FanPair(fan: int, width: int): seq<Write>
  {
    [("FanSelect", fan), ("FanPeriod", 100), ("FanWidth", width)]
  }

  /**
   * `HW_Set_FanSpeed`: the fan index is clamped to 0..2 and the percentage
   * to [0, 100] and truncated; index 2 drives both fans.
   */
  function FanWrites(fan: int, percent: real): (w: seq<Write>)
    ensures |w| == 3 || |w| == 6
    ensures forall i :: 0 <= i < |w| && w[i].0 == "FanWidth" ==> 0 <= w[i].1 <= 100
    ensures forall i :: 0 <= i < |w| && w[i].0 == "FanSelect" ==> 0 <= w[i].1 <= 1
    ensures |w| == 6 <==> fan >= 2
  {
    var sel := if fan > 2 then 2 else if fan < 0 then 0 else fan;
    var p := if percent < 0.0 then 0.0 else if percent > 100.0 then 100.0 else percent;
    var width := p.Floor;
    if sel < 2 then FanPair(sel, width) else FanPair(0, width) + FanPair(1, width)
  }

  /**
   * The override `CameraCmvCxp::UpdateCaptureConfiguration`, compiled only
   * when `COAXPRESS_FRAME_AVERAGE` is not defined: the camera takes one
   * read per capture, so reads are folded into captures.
   */
  function UpdateCaptureConfiguration(numberReads: int, numberCaptures: int): (r: (int, int))
    ensures r.0 * r.1 == numberReads * numberCaptures
    ensures numberReads != 1 ==> r.0 == 1
    ensures numberReads == 1 ==> r == (numberReads, numberCaptures)
  {
    if numberReads != 1 then (1, numberCaptures * numberReads) else (numberReads, numberCaptures)
  }

  /**
   * What runs in the build: `COAXPRESS_FRAME_AVERAGE` is defined, the
   * override is compiled out, and the base class's default leaves both
   * counts as they are, since the grabber averages the reads of a capture.
   */
  function BuiltCaptureConfiguration(numberReads: int, numberCaptures: int): (r: (int, int))
    ensures r.0 * r.1 == numberReads * numberCaptures
    ensures r.0 == numberReads && r.1 == numberCaptures
  {
    (numberReads, numberCaptures)
  }

  /** The two builds agree exactly when a capture takes a single read. */
  lemma BuildsAgreeOnSingleRead(numberReads: int, numberCaptures: int)
    ensures UpdateCaptureConfiguration(numberReads, numberCaptures) == BuiltCaptureConfiguration(numberReads, numberCaptures)
            <==> numberReads == 1
  {
  }

  datatype GrabberCall = GrabberConfigure(exposureUs: int) | GrabberStart | GrabberStop | GrabberFwUpdate(fwType: string)

  class Camera {
    var connection: ConnectionState
    var capture: Capture
    var model: Option<CameraModel>
    var grabberCalls: seq<GrabberCall>
    var registerWrites: seq<Write>

    constructor ()
      ensures connection == NotConnected && capture == Capture(NotInitialised, InvalidFrameIndex, false)
      ensures model == None && grabberCalls == [] && registerWrites == []
    {
      connection := NotConnected;
      capture := Capture(NotInitialised, InvalidFrameIndex, false);
      model := None;
      grabberCalls := [];
      registerWrites := [];
    }

    method IsConnected() returns (b: bool)
      ensures b <==> connection == CameraConnected
    {
      b := connection == CameraConnected;
    }

    /**
     * `_Connect`: the previous grabber is released, then a new one is
     * created (`grabberCreated`) for a camera of the given vendor and model.
     * A failure leaves no grabber and the connection state as it was.
     */
    method Connect(grabberCreated: bool, vendor: string, modelName: string) returns (err: C.Error)
      modifies this`connection, this`capture, this`model
      ensures grabberCreated ==>
        err == C.Ok && connection == CameraConnected && capture == Capture(Ready, old(capture).frameIndex, true)
        && model == CameraModelOf(vendor, modelName)
      ensures !grabberCreated ==>
        err == C.Failed && connection == old(connection) && model == old(model)
        && capture == Capture(NotInitialised, old(capture).frameIndex, false)
    {
      capture := Capture(NotInitialised, capture.frameIndex, false);
      if grabberCreated {
        model := CameraModelOf(vendor, modelName);
        connection := CameraConnected;
        capture := capture.(status := Ready, hasGrabber := true);
        err := C.Ok;
      } else {
        err := C.Failed;
      }
    }

    /** `Disconnect` always ends NotConnected and NotInitialised, with no grabber. */
    method Disconnect() returns (err: C.Error)
      modifies this`connection, this`capture
      ensures err == C.Ok && connection == NotConnected
      ensures capture == Capture(NotInitialised, old(capture).frameIndex, false)
    {
      capture := Capture(NotInitialised, capture.frameIndex, false);
      connection := NotConnected;
      err := C.Ok;
    }

    method OnFrameCaptured(frameIndex: int)
      modifies this`capture
      ensures capture == FrameCaptured(old(capture), frameIndex)
    {
      capture := FrameCaptured(capture, frameIndex);
    }

    /** `Configure`; the grabber reports back the exposure it applied, which is written into the request. */
    method ConfigureCall(exposureUs: int, appliedExposureUs: int) returns (err: C.Error, exposureOut: int)
      modifies this`capture, this`grabberCalls
      ensures (capture, err) == Configure(old(capture))
      ensures var stopped := old(capture).status != Ready && old(capture).hasGrabber;
        var applied := err == C.Ok && old(capture).hasGrabber;
        && grabberCalls == old(grabberCalls) + (if stopped then [GrabberStop] else [])
                                              + (if applied then [GrabberConfigure(exposureUs)] else [])
        && exposureOut == (if applied then appliedExposureUs else exposureUs)
    {
      var s := StopMeasurement(capture);
      capture := s.0;
      if s.1 == C.Ok {
        grabberCalls := grabberCalls + [GrabberStop];
      }
      exposureOut := exposureUs;
      if capture.status == Ready {
        err := C.Ok;
        if capture.hasGrabber {
          grabberCalls := grabberCalls + [GrabberConfigure(exposureUs)];
          exposureOut := appliedExposureUs;
        }
      } else {
        err := C.InvalidState;
      }
    }

    method StartMeasurementCall(started: bool, grabberFrameIndex: int) returns (err: C.Error)
      modifies this`capture, this`grabberCalls
      ensures (capture, err) == StartMeasurement(old(capture), started, grabberFrameIndex)
      ensures grabberCalls == old(grabberCalls) + (if err == C.Ok then [GrabberStart] else [])
    {
      var r := StartMeasurement(capture, started, grabberFrameIndex);
      if r.1 == C.Ok {
        grabberCalls := grabberCalls + [GrabberStart];
      }
      capture, err := r.0, r.1;
    }

    method StopMeasurementCall() returns (err: C.Error)
      modifies this`capture, this`grabberCalls
      ensures (capture, err) == StopMeasurement(old(capture))
      ensures grabberCalls == old(grabberCalls) + (if err == C.Ok then [GrabberStop] else [])
    {
      var r := StopMeasurement(capture);
      if r.1 == C.Ok {
        grabberCalls := grabberCalls + [GrabberStop];
      }
      capture, err := r.0, r.1;
    }

    method GetRawDataCall() returns (err: C.Error)
      modifies this`capture
      ensures (capture, err) == GetRawData(old(capture))
    {
      var r := GetRawData(capture);
      capture, err := r.0, r.1;
    }

    method GetStatus() returns (s: Status, err: C.Error)
      ensures s == capture.status && err == C.Ok
    {
      s, err := capture.status, C.Ok;
    }

    /** `CheckConnection`: Ok only when a grabber exists and reports that the camera changed. */
    method CheckConnection(cameraChanged: bool) returns (err: C.Error)
      ensures err == C.Ok <==> capture.hasGrabber && cameraChanged
      ensures err != C.Ok ==> err == C.Failed
    {
      err := C.Failed;
      if capture.hasGrabber && cameraChanged {
        err := C.Ok;
      }
    }

    /** `FwUpdate`: an unknown firmware type is refused; a known one is passed to the grabber. */
    method FwUpdate(fwType: string, updateResult: C.Error) returns (err: C.Error)
      modifies this`grabberCalls
      ensures fwType !in FirmwareTypes() ==> err == C.InvalidParameter && grabberCalls == old(grabberCalls)
      ensures fwType in FirmwareTypes() ==> err == updateResult && grabberCalls == old(grabberCalls) + [GrabberFwUpdate(fwType)]
    {
      if fwType in FirmwareTypes() {
        grabberCalls := grabberCalls + [GrabberFwUpdate(fwType)];
        err := updateResult;
      } else {
        err := C.InvalidParameter;
      }
    }

    method SetFanSpeed(fan: int, percent: real)
      modifies this`registerWrites
      ensures registerWrites == old(registerWrites) + FanWrites(fan, percent)
    {
      registerWrites := registerWrites + FanWrites(fan, percent);
    }
  }
}
