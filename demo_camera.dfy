/*
 * The demo application's stand-in camera (ConoscopeDemo/Camera/camera.cpp):
 * it records its identity and connection settings, answers the sensor
 * temperature target with a dummy reading that settles on the target, and
 * reports the rest of the camera interface as not implemented.
 */
module DemoCamera {
  import C = Common
  import Q = QtText

  /** `CameraInfo_t`: what `Register` records and `GetInfo` reports. */
  datatype Info = Info(vendorName: string, boardSerial: string, cameraSerial: string)

  /** The result of registering: the new record and the error returned. */
  datatype Registration = Registration(info: Info, e: C.Error)

  /**
   * `Register` as written (lines 36-59): the board serial is split on '_';
   * the branch for zero parts keeps it whole and two parts give the vendor
   * and the board serial; any other count is refused. The camera serial is
   * stored in every case.
   */
  function RegisterAsWritten(info: Info, cameraSerial: string, boardSerial: string): (r: Registration)
    ensures r.info.cameraSerial == cameraSerial
    ensures r.e == C.Ok <==> |Q.Split(boardSerial, '_')| == 2
    ensures r.e == C.Ok ==> r.info.vendorName + "_" + r.info.boardSerial == boardSerial
    ensures r.e != C.Ok ==>
      r.e == C.InvalidParameter && r.info.vendorName == info.vendorName && r.info.boardSerial == info.boardSerial
  {
    var parts := Q.Split(boardSerial, '_');
    Q.JoinSplit(boardSerial, '_');
    if |parts| == 0 then Registration(info.(boardSerial := boardSerial, cameraSerial := cameraSerial), C.Ok)
    else if |parts| == 2 then
      assert parts[1..] == [parts[1]];
      Registration(Info(parts[0], parts[1], cameraSerial), C.Ok)
    else Registration(info.(cameraSerial := cameraSerial), C.InvalidParameter)
  }

  /** As written, a board serial without '_' is one part, so it is refused; the zero-part branch cannot run. */
  lemma PlainSerialRefusedAsWritten(info: Info, cameraSerial: string)
    ensures |Q.Split("B1234", '_')| == 1
    ensures RegisterAsWritten(info, cameraSerial, "B1234").e == C.InvalidParameter
    ensures forall s :: |Q.Split(s, '_')| != 0
  {
    Q.SplitAbsent("B1234", '_');
  }

  /**
   * The registration evidently intended: a board serial without '_' is kept
   * whole, one with a single '_' gives the vendor and the board serial, and
   * one with more is refused. The camera serial is stored in every case.
   */
  function Registered(info: Info, cameraSerial: string, boardSerial: string): (r: Registration)
    ensures r.info.cameraSerial == cameraSerial
    ensures r.e == C.Ok <==> |Q.Split(boardSerial, '_')| <= 2
    ensures r.e == C.Ok && '_' !in boardSerial ==> r.info.vendorName == info.vendorName && r.info.boardSerial == boardSerial
    ensures r.e == C.Ok && '_' in boardSerial ==> r.info.vendorName + "_" + r.info.boardSerial == boardSerial && '_' !in r.info.vendorName
    ensures r.e != C.Ok ==>
      r.e == C.InvalidParameter && r.info.vendorName == info.vendorName && r.info.boardSerial == info.boardSerial
  {
    var parts := Q.Split(boardSerial, '_');
    Q.JoinSplit(boardSerial, '_');
    if |parts| == 1 then
      assert '_' !in boardSerial by {
        if '_' in boardSerial {
          OccursOnce(boardSerial, '_');
        }
      }
      Registration(info.(boardSerial := boardSerial, cameraSerial := cameraSerial), C.Ok)
    else if |parts| == 2 then
      assert parts[1..] == [parts[1]];
      assert '_' in boardSerial by {
        if '_' !in boardSerial {
          AbsentNoOccurrence(boardSerial, '_');
        }
      }
      Registration(Info(parts[0], parts[1], cameraSerial), C.Ok)
    else Registration(info.(cameraSerial := cameraSerial), C.InvalidParameter)
  }

  /** A character that is present occurs at least once. */
  lemma {:induction false} OccursOnce(s: string, c: char)
    requires c in s
    ensures Q.Occurrences(s, c) >= 1
    decreases |s|
  {
    if s[0] != c {
      assert c in s[1..];
      OccursOnce(s[1..], c);
    }
  }

  /** A character that is absent occurs nowhere. */
  lemma {:induction false} AbsentNoOccurrence(s: string, c: char)
    requires c !in s
    ensures Q.Occurrences(s, c) == 0
    decreases |s|
  {
    if |s| > 0 {
      assert c !in s[1..];
      AbsentNoOccurrence(s[1..], c);
    }
  }

  /** `Registered` and the as-written registration agree except on a board serial without '_'. */
  lemma RegisterAgreesWithAsWritten(info: Info, cameraSerial: string, boardSerial: string)
    requires '_' in boardSerial
    ensures Registered(info, cameraSerial, boardSerial) == RegisterAsWritten(info, cameraSerial, boardSerial)
  {
    OccursOnce(boardSerial, '_');
  }

  /** The dummy cold-sensor reading for the current step (lines 351-359). */
  function ColdReading(target: real, step: int): (value: real)
    ensures value == target <==> step == 0
    ensures step > 0 ==> value < target
  {
    target - step as real * 0.1
  }

  /** The step after one cold-sensor reading: it moves on while the reading differs from the target. */
  function NextStep(target: real, step: int): (next: int)
    ensures step == 0 ==> next == 0
    ensures step != 0 ==> next == step - 1
  {
    if ColdReading(target, step) != target then step - 1 else step
  }

  /** The step after `n` cold-sensor readings. */
  function StepAfter(target: real, step: int, n: nat): int
    decreases n
  {
    if n == 0 then step else StepAfter(target, NextStep(target, step), n - 1)
  }

  /** From a non-negative step the readings settle on the target after that many readings, and stay there. */
  lemma {:induction false} ReadingsSettle(target: real, step: int, n: nat)
    requires 0 <= step <= n
    ensures StepAfter(target, step, n) == 0
    ensures ColdReading(target, StepAfter(target, step, n)) == target
  {
    if n > 0 {
      ReadingsSettle(target, NextStep(target, step), n - 1);
    }
  }

  /** The readings rise towards the target while they have not reached it. */
  lemma ReadingsRise(target: real, step: int)
    requires step > 0
    ensures ColdReading(target, step) < ColdReading(target, NextStep(target, step)) <= target
  {
  }

  datatype CameraModel = CameraModelUnknown

  class Camera {
    var model: CameraModel
    var info: Info
    var ipAddr: string
    var port: string
    var connectionConfig: string
    /** `mDummySensorTarget` and `mDummySensorTargetStep`. */
    var sensorTarget: real
    var sensorTargetStep: int

    /**
     * The constructor (lines 3-6) sets the model only; the other fields start
     * as the class declaration leaves them, given here.
     */
    constructor (info0: Info, target: real, step: int)
      ensures model == CameraModelUnknown && info == info0
      ensures sensorTarget == target && sensorTargetStep == step
    {
      model := CameraModelUnknown;
      info := info0;
      ipAddr, port, connectionConfig := "", "", "";
      sensorTarget, sensorTargetStep := target, step;
    }

    /**
     * `Register` (lines 36-59) as written: only a board serial with exactly
     * one '_' is accepted, since the split never yields zero parts.
     */
    method Register(cameraSerial: string, boardSerial: string) returns (e: C.Error)
      modifies this
      ensures Registration(info, e) == RegisterAsWritten(old(info), cameraSerial, boardSerial)
      ensures model == old(model) && ipAddr == old(ipAddr) && port == old(port) && connectionConfig == old(connectionConfig)
      ensures sensorTarget == old(sensorTarget) && sensorTargetStep == old(sensorTargetStep)
    {
      var parts := Q.Split(boardSerial, '_');
      e := C.Ok;
      if |parts| == 0 {
        // lines 42-45: a split never yields zero parts, so this branch is dead
        assert false;
      } else if |parts| == 2 {
        info := info.(vendorName := parts[0], boardSerial := parts[1]);
      } else {
        e := C.InvalidParameter;
      }
      info := info.(cameraSerial := cameraSerial);
    }

    /** `ConfigureConnection` (lines 61-71): the three settings are stored. */
    method ConfigureConnection(ip: string, portName: string, config: string) returns (e: C.Error)
      modifies this
      ensures e == C.Ok && ipAddr == ip && port == portName && connectionConfig == config
      ensures model == old(model) && info == old(info)
      ensures sensorTarget == old(sensorTarget) && sensorTargetStep == old(sensorTargetStep)
    {
      ipAddr, port, connectionConfig := ip, portName, config;
      e := C.Ok;
    }

    /** `GetInfo` (lines 73-81): a copy of the registered identity. */
    method GetInfo() returns (result: Info, e: C.Error)
      ensures e == C.Ok && result == info
    {
      result, e := info, C.Ok;
    }

    /** `GetFloatValue` (lines 322-332): only `PIDTarget` is known. */
    function GetFloatValue(feature: string): (value: real)
      reads this
      ensures feature == "PIDTarget" ==> value == sensorTarget
      ensures feature != "PIDTarget" ==> value == 0.0
    {
      if feature == "PIDTarget" then sensorTarget else 0.0
    }

    /** `SetFloatValue` (lines 334-343): a new `PIDTarget` restarts the dummy reading ten steps away. */
    method SetFloatValue(feature: string, value: real)
      modifies this
      ensures feature == "PIDTarget" ==> sensorTarget == value && sensorTargetStep == 10
      ensures feature != "PIDTarget" ==> sensorTarget == old(sensorTarget) && sensorTargetStep == old(sensorTargetStep)
      ensures model == old(model) && info == old(info)
      ensures ipAddr == old(ipAddr) && port == old(port) && connectionConfig == old(connectionConfig)
    {
      if feature == "PIDTarget" {
        sensorTarget, sensorTargetStep := value, 10;
      }
    }

    /** `GetHw` (lines 345-366): the cold-sensor reading moves one step towards the target per call. */
    method GetHw(device: string, feature: string) returns (value: real)
      modifies this
      ensures device == "Sensor" && feature == "ColdTemperature" ==>
        value == ColdReading(old(sensorTarget), old(sensorTargetStep))
        && sensorTargetStep == NextStep(old(sensorTarget), old(sensorTargetStep))
      ensures device == "Sensor" && feature == "CmosTemperature" ==> value == sensorTarget
      ensures !(device == "Sensor" && feature == "ColdTemperature") ==> sensorTargetStep == old(sensorTargetStep)
      ensures device != "Sensor" || (feature != "ColdTemperature" && feature != "CmosTemperature") ==> value == 0.0
      ensures sensorTarget == old(sensorTarget) && model == old(model) && info == old(info)
      ensures ipAddr == old(ipAddr) && port == old(port) && connectionConfig == old(connectionConfig)
    {
      value := 0.0;
      if device == "Sensor" {
        if feature == "ColdTemperature" {
          value := sensorTarget - sensorTargetStep as real * 0.1;
          if value != sensorTarget {
            sensorTargetStep := sensorTargetStep - 1;
          }
        } else if feature == "CmosTemperature" {
          value := sensorTarget;
        }
      }
    }

    /** `GetSerialNumber` (lines 88-92) is not implemented by the demo camera. */
    method GetSerialNumber() returns (e: C.Error)
      ensures e == C.NotImplemented
    {
      e := C.NotImplemented;
    }

    /** `GetSettings` (lines 94-97) is not implemented by the demo camera. */
    method GetSettings() returns (e: C.Error)
      ensures e == C.NotImplemented
    {
      e := C.NotImplemented;
    }

    /** `ErrorRecovery` (lines 172-175) is not implemented by the demo camera. */
    method ErrorRecovery() returns (e: C.Error)
      ensures e == C.NotImplemented
    {
      e := C.NotImplemented;
    }
  }
}
