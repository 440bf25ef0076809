/*
 * BaseEquipment: the state every instrument of the Python framework shares.
 * An instrument has a status, an optional last error, a configuration
 * dictionary (defaults merged at construction, later updated in place and
 * then applied) and an append-only log of measurement records.
 *
 * The subclass hook `apply_config` is abstract here; its outcome is an
 * input of `SetConfig` (the concrete instruments call their own apply step).
 */
module BaseEquipment {
  import opened Common

  datatype EquipmentStatus = Disconnected | Connecting | Ready | Measuring | Error | Busy

  /** The `.value` text of each status. */
  function StatusValue(s: EquipmentStatus): string
  {
    match s
    case Disconnected => "disconnected"
    case Connecting => "connecting"
    case Ready => "ready"
    case Measuring => "measuring"
    case Error => "error"
    case Busy => "busy"
  }

  lemma StatusValueInjective(a: EquipmentStatus, b: EquipmentStatus)
    ensures StatusValue(a) == StatusValue(b) <==> a == b
  {
  }

  datatype IOType = Ethernet | Serial | Usb | Special

  function IOTypeValue(t: IOType): string
  {
    match t
    case Ethernet => "ethernet"
    case Serial => "serial"
    case Usb => "usb"
    case Special => "special"
  }

  /** The configuration every instrument starts from. */
  function DefaultConfig(): (d: Dict)
  {
    map["timeout" := VReal(5.0), "auto_range" := VBool(true), "measurement_units" := VStr("SI"),
        "sample_rate" := VReal(1.0), "precision" := VInt(6)]
  }

  /** The five keys every instrument starts from. */
  lemma DefaultConfigKeys()
    ensures DefaultConfig().Keys == {"timeout", "auto_range", "measurement_units", "sample_rate", "precision"}
  {
  }

  /** Merging `a` again under a dictionary already merged over it changes nothing. */
  lemma MergeAgain(a: Dict, b: Dict)
    ensures a + (a + b) == a + b
  {
    assert (a + (a + b)).Keys == (a + b).Keys;
  }

  /**
   * The record `_add_measurement` appends: timestamp, value and units, then
   * the metadata merged over them (a metadata key wins, as `dict.update` does).
   */
  function MeasurementRecord(timestamp: string, value: Value, units: string, metadata: Dict): (r: Dict)
    ensures r.Keys == {"timestamp", "value", "units"} + metadata.Keys
    ensures forall k :: k in metadata ==> r[k] == metadata[k]
    ensures "value" !in metadata ==> r["value"] == value
    ensures "units" !in metadata ==> r["units"] == VStr(units)
    ensures "timestamp" !in metadata ==> r["timestamp"] == VStr(timestamp)
  {
    map["timestamp" := VStr(timestamp), "value" := value, "units" := VStr(units)] + metadata
  }

  /** What the subclass's `apply_config` did: returned a flag, or raised with a message. */
  datatype ApplyOutcome = Returned(ok: bool) | Raised(message: string)

  /** Python's `Optional[str]` as a dictionary value. */
  function OptionalText(s: Option<string>): Value
  {
    if s.None? then VNone else VStr(s.value)
  }

  class Equipment {
    var equipmentName: string
    var ioType: IOType
    var status: EquipmentStatus
    var lastError: Option<string>
    var measurementData: seq<Dict>
    var config: Dict
    var defaultConfig: Dict
    var measurementActive: bool

    constructor (name: string, io: IOType)
      ensures equipmentName == name && ioType == io
      ensures status == Disconnected && lastError == None
      ensures measurementData == [] && !measurementActive
      ensures defaultConfig == DefaultConfig() && config == defaultConfig
    {
      equipmentName := name;
      ioType := io;
      status := Disconnected;
      lastError := None;
      measurementData := [];
      measurementActive := false;
      defaultConfig := DefaultConfig();
      config := map[] + DefaultConfig();
    }

    /** `get_config`: a copy; maps are values, so changing it cannot reach `config`. */
    method GetConfig() returns (c: Dict)
      ensures c == config
    {
      c := config;
    }

    /** `dict.update` on the configuration. */
    method UpdateConfig(params: Dict)
      modifies this`config
      ensures config == old(config) + params
    {
      config := config + params;
    }

    /** `self.default_config.update(...)`, as the subclasses' constructors do. */
    method UpdateDefaultConfig(extra: Dict)
      modifies this`defaultConfig
      ensures defaultConfig == old(defaultConfig) + extra
    {
      defaultConfig := defaultConfig + extra;
    }

    /**
     * `set_config`: every given key is merged (no whitelist), then the
     * configuration is applied; the merge stays when the apply step fails.
     */
    method SetConfig(params: Dict, apply: ApplyOutcome) returns (ok: bool)
      modifies this`config, this`lastError
      ensures config == old(config) + params
      ensures ok == (apply.Returned? && apply.ok)
      ensures lastError == if apply.Raised? then Some("Configuration error: " + apply.message) else old(lastError)
    {
      UpdateConfig(params);
      match apply
      case Returned(b) =>
        ok := b;
      case Raised(msg) =>
        lastError := Some("Configuration error: " + msg);
        ok := false;
    }

    method IsMeasuring() returns (m: bool)
      ensures m == measurementActive
    {
      m := measurementActive;
    }

    method GetMeasurementData() returns (d: seq<Dict>)
      ensures d == measurementData
    {
      d := measurementData;
    }

    method ClearData()
      modifies this`measurementData
      ensures measurementData == []
    {
      measurementData := [];
    }

    /**
     * `get_status`; `connected` is what the subclass's `is_connected`
     * answers at the time of the call.
     */
    method GetStatus(connected: bool) returns (r: Dict)
      ensures r.Keys == {"name", "status", "connected", "measuring", "io_type", "last_error", "data_points"}
      ensures r["data_points"] == VInt(|measurementData|)
      ensures r["measuring"] == VBool(measurementActive)
      ensures r["connected"] == VBool(connected)
      ensures r["status"] == VStr(StatusValue(status)) && r["io_type"] == VStr(IOTypeValue(ioType))
      ensures r["name"] == VStr(equipmentName) && r["last_error"] == OptionalText(lastError)
    {
      r := map["name" := VStr(equipmentName), "status" := VStr(StatusValue(status)),
               "connected" := VBool(connected), "measuring" := VBool(measurementActive),
               "io_type" := VStr(IOTypeValue(ioType)), "last_error" := OptionalText(lastError),
               "data_points" := VInt(|measurementData|)];
    }

    method GetLastError() returns (e: Option<string>)
      ensures e == lastError
    {
      e := lastError;
    }

    method ClearError()
      modifies this`lastError
      ensures lastError == None
    {
      lastError := None;
    }

    /** `_add_measurement`; `timestamp` is the ISO text of the wall clock at the call. */
    method AddMeasurement(value: Value, units: string, metadata: Dict, timestamp: string)
      modifies this`measurementData
      ensures measurementData == old(measurementData) + [MeasurementRecord(timestamp, value, units, metadata)]
    {
      measurementData := measurementData + [MeasurementRecord(timestamp, value, units, metadata)];
    }

    /** `_set_status`: the status always changes, the last error only for a non-empty message. */
    method SetStatus(s: EquipmentStatus, errorMsg: Option<string>)
      modifies this`status, this`lastError
      ensures status == s
      ensures lastError == if Truthy(errorMsg) then errorMsg else old(lastError)
    {
      status := s;
      if Truthy(errorMsg) {
        lastError := errorMsg;
      }
    }

    /** `_measurement_active`, set by the subclasses' start and stop steps. */
    method SetMeasurementActive(active: bool)
      modifies this`measurementActive
      ensures measurementActive == active
    {
      measurementActive := active;
    }

    method SetLastError(msg: string)
      modifies this`lastError
      ensures lastError == Some(msg)
    {
      lastError := Some(msg);
    }
  }
}
