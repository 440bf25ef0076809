/*
 * AgilentPowerSupplyEquipment: an E364xA supply on a VISA session. The model
 * table fixes the channel count and the voltage and current ceiling of each
 * output range; the setters check the channel and the ceiling before they
 * reach the instrument, and record what they set in the configuration.
 *
 * The VISA session is an oracle: `connected` is what `is_connected` answers,
 * `transport` what the instrument call did (returned, or raised a message).
 */
module PowerSupply {
  import opened Common
  import BaseEquipment

  datatype RangeLimits = RangeLimits(maxVolts: real, maxAmps: real)
  datatype ModelInfo = ModelInfo(numOutputChannels: nat, p8v: RangeLimits, p20v: RangeLimits)

  /** `MODEL_DEFINITIONS`. */
  function ModelDefinition(model: string): Option<ModelInfo>
  {
    if model == "e3640a" then Some(ModelInfo(1, RangeLimits(8.0, 3.0), RangeLimits(20.0, 1.5)))
    else if model == "e3646a" then Some(ModelInfo(2, RangeLimits(8.0, 3.0), RangeLimits(20.0, 1.5)))
    else if model == "e3648a" then Some(ModelInfo(2, RangeLimits(8.0, 5.0), RangeLimits(20.0, 2.5)))
    else None
  }

  /** `MODEL_DEFINITIONS.get(model, MODEL_DEFINITIONS['e3640a'])`. */
  function ModelInfoFor(model: string): (m: ModelInfo)
    ensures ModelDefinition(model).None? ==> m == ModelDefinition("e3640a").value
    ensures 1 <= m.numOutputChannels <= 2
  {
    match ModelDefinition(model)
    case Some(info) => info
    case None => ModelDefinition("e3640a").value
  }

  /** `ranges[name]`, with `None` for the `KeyError` of a name that is not a range. */
  function RangeOf(info: ModelInfo, range: Value): Option<RangeLimits>
  {
    if range == VStr("P8V") then Some(info.p8v)
    else if range == VStr("P20V") then Some(info.p20v)
    else None
  }

  /** Python's `str.lower()` on ASCII letters. */
  function Lower(s: string): (r: string)
    ensures |r| == |s|
  {
    if s == [] then [] else
    var c := s[0];
    [if 'A' <= c <= 'Z' then (c as int + 32) as char else c] + Lower(s[1..])
  }

  /** The keys the supply adds to the base defaults. */
  function SupplyDefaults(channels: nat): (d: Dict)
  {
    var two := channels > 1;
    map["output_enabled" := VBool(false),
        "voltage_channel_1" := VReal(0.0),
        "current_limit_channel_1" := VReal(0.1),
        "voltage_channel_2" := if two then VReal(0.0) else VNone,
        "current_limit_channel_2" := if two then VReal(0.1) else VNone,
        "range_channel_1" := VStr("P8V"),
        "range_channel_2" := if two then VStr("P8V") else VNone,
        "over_voltage_protection" := VBool(true),
        "over_current_protection" := VBool(true)]
  }

  /** The nine keys the supply adds; the channel-2 entries are `None` on a single-channel model. */
  lemma SupplyDefaultsShape(channels: nat)
    ensures SupplyDefaults(channels).Keys == {"output_enabled", "voltage_channel_1", "current_limit_channel_1",
                                              "voltage_channel_2", "current_limit_channel_2", "range_channel_1",
                                              "range_channel_2", "over_voltage_protection", "over_current_protection"}
    ensures var d := SupplyDefaults(channels);
      channels <= 1 ==> d["voltage_channel_2"] == VNone && d["current_limit_channel_2"] == VNone && d["range_channel_2"] == VNone
    ensures var d := SupplyDefaults(channels);
      channels > 1 ==> d["voltage_channel_2"] == VReal(0.0) && d["current_limit_channel_2"] == VReal(0.1) && d["range_channel_2"] == VStr("P8V")
    ensures SupplyDefaults(channels)["output_enabled"] == VBool(false)
  {
  }

  /** The per-channel key `<prefix>_channel_<n>`. */
  function ChannelKey(prefix: string, channel: int): string
  {
    prefix + "_channel_" + IntText(channel)
  }

  /** What a call to the instrument did. */
  datatype Transport = Done | Raised(message: string)

  /** Which check of a setter failed, in the order the setters make them. */
  datatype SetCheck =
    | InvalidChannel
    | RangeKeyMissing
    | RangeNotFound(range: Value)
    | OverLimit(limit: real, rangeName: string)
    | TransportFailed(message: string)
    | Accepted

  /**
   * The checks of `set_voltage` (`volts`) and `set_current_limit` (`!volts`)
   * once connected: channel in 1..num_channels, the channel's range key
   * present and naming a range, the value not above that range's ceiling,
   * then the instrument call.
   */
  function CheckSetting(info: ModelInfo, config: Dict, channel: int, value: real, volts: bool, transport: Transport): (c: SetCheck)
    ensures (channel < 1 || channel > info.numOutputChannels) <==> c == InvalidChannel
    ensures c == RangeKeyMissing ==> ChannelKey("range", channel) !in config
    ensures c.RangeNotFound? ==> ChannelKey("range", channel) in config && c.range == config[ChannelKey("range", channel)] && RangeOf(info, c.range).None?
    ensures c.OverLimit? ==> ChannelKey("range", channel) in config && value > c.limit && VStr(c.rangeName) == config[ChannelKey("range", channel)]
    ensures c == Accepted ==> transport == Done
  {
    if channel < 1 || channel > info.numOutputChannels then InvalidChannel
    else
      var key := ChannelKey("range", channel);
      if key !in config then RangeKeyMissing
      else
        var limits := RangeOf(info, config[key]);
        if limits.None? then RangeNotFound(config[key])
        else
          var ceiling := if volts then limits.value.maxVolts else limits.value.maxAmps;
          if value > ceiling then OverLimit(ceiling, config[key].s)
          else if transport.Raised? then TransportFailed(transport.message)
          else Accepted
  }

  /** How Python prints a ceiling of `MODEL_DEFINITIONS`: 1.5 and 2.5 are floats there, the others ints. */
  function LimitText(x: real): string
  {
    if x == 1.5 then "1.5" else if x == 2.5 then "2.5" else IntText(x.Floor)
  }

  /**
   * `str(e)` of the exception `ranges[v]` raises for a range value that names
   * no range: the `KeyError` shows the value's `repr`, and a list or a dict
   * raises `TypeError` instead. `show` is Python's `str` of a float.
   */
  function RangeLookupText(v: Value, show: real -> string): string
  {
    match v
    case VNone => "None"
    case VBool(b) => if b then "True" else "False"
    case VInt(i) => IntText(i)
    case VReal(r) => show(r)
    case VStr(s) => "'" + s + "'"
    case VList(_) => "unhashable type: 'list'"
    case VDict(_) => "unhashable type: 'dict'"
  }

  /** `str(e)` of the exception a failed check raises; `show` is Python's `str` of a float. */
  function CheckText(c: SetCheck, volts: bool, channel: int, value: real, show: real -> string): string
  {
    match c
    case InvalidChannel => "Invalid channel " + IntText(channel)
    case RangeKeyMissing => KeyErrorText(ChannelKey("range", channel))
    case RangeNotFound(v) => RangeLookupText(v, show)
    case OverLimit(limit, name) =>
      var unit := if volts then "V" else "A";
      (if volts then "Voltage " else "Current ") + show(value) + unit + " exceeds maximum " + LimitText(limit) + unit
      + " for range " + name
    case TransportFailed(m) => m
    case Accepted => ""
  }

  /** The text recorded for 9 V on the 8 V range of an e3640a. */
  lemma OverCeilingMessage(config: Dict, show: real -> string, transport: Transport)
    requires ChannelKey("range", 1) in config && config[ChannelKey("range", 1)] == VStr("P8V")
    requires show(9.0) == "9.0"
    ensures var c := CheckSetting(ModelInfoFor("e3640a"), config, 1, 9.0, true, transport);
      c == OverLimit(8.0, "P8V") && CheckText(c, true, 1, 9.0, show) == "Voltage 9.0V exceeds maximum 8V for range P8V"
  {
    var info := ModelInfoFor("e3640a");
    assert info.numOutputChannels == 1 && info.p8v.maxVolts == 8.0;
    assert RangeOf(info, VStr("P8V")) == Some(info.p8v);
    assert LimitText(8.0) == "8" by { assert IntText(8) == "8"; }
    var c := CheckSetting(info, config, 1, 9.0, true, transport);
    assert c == OverLimit(8.0, "P8V");
    calc {
      CheckText(c, true, 1, 9.0, show);
      "Voltage " + "9.0" + "V" + " exceeds maximum " + "8" + "V" + " for range " + "P8V";
      "Voltage 9.0V exceeds maximum 8V for range P8V";
    }
  }

  /** A range key that is missing is named, quoted, in the recorded text. */
  lemma MissingRangeKeyMessage(info: ModelInfo, config: Dict, value: real, show: real -> string, transport: Transport)
    requires 1 <= info.numOutputChannels && ChannelKey("range", 1) !in config
    ensures var c := CheckSetting(info, config, 1, value, false, transport);
      c == RangeKeyMissing && CheckText(c, false, 1, value, show) == "'range_channel_1'"
  {
    assert IntText(1) == "1";
  }

  /** A value above the selected range's ceiling is refused for every channel and transport. */
  lemma OverCeilingRefused(info: ModelInfo, config: Dict, channel: int, value: real, volts: bool, transport: Transport)
    requires 1 <= channel <= info.numOutputChannels
    requires ChannelKey("range", channel) in config
    requires RangeOf(info, config[ChannelKey("range", channel)]).Some?
    requires value > (var l := RangeOf(info, config[ChannelKey("range", channel)]).value; if volts then l.maxVolts else l.maxAmps)
    ensures CheckSetting(info, config, channel, value, volts, transport) ==
      OverLimit((var l := RangeOf(info, config[ChannelKey("range", channel)]).value; if volts then l.maxVolts else l.maxAmps),
                config[ChannelKey("range", channel)].s)
  {
  }

  class Supply {
    const base: BaseEquipment.Equipment
    const model: string
    const modelInfo: ModelInfo
    const numChannels: nat
    /** `self._ps is not None`: a VISA session exists. */
    var hasSession: bool
    /** The settings sent to the instrument, in order (channel, key, value). */
    var sent: seq<(int, string, Value)>

    constructor (visaAddress: string, modelName: string, name: string)
      ensures model == Lower(modelName) && modelInfo == ModelInfoFor(model)
      ensures numChannels == modelInfo.numOutputChannels
      ensures base.defaultConfig == BaseEquipment.DefaultConfig() + SupplyDefaults(numChannels)
      ensures base.config == base.defaultConfig
      ensures base.status == BaseEquipment.Disconnected && base.measurementData == []
      ensures !hasSession && sent == []
      ensures fresh(base)
    {
      var lower := Lower(modelName);
      var info := ModelInfoFor(lower);
      var b := new BaseEquipment.Equipment(name, BaseEquipment.Ethernet);
      var d := SupplyDefaults(info.numOutputChannels);
      b.UpdateDefaultConfig(d);
      BaseEquipment.MergeAgain(BaseEquipment.DefaultConfig(), d);
      b.UpdateConfig(b.defaultConfig);
      base := b;
      model := lower;
      modelInfo := info;
      numChannels := info.numOutputChannels;
      hasSession := false;
      sent := [];
    }

    /** `set_voltage` (`volts`) and `set_current_limit` (`!volts`), which differ only in key and ceiling. */
    method SetChannelValue(value: real, channel: int, volts: bool, connected: bool, transport: Transport, show: real -> string) returns (ok: bool)
      modifies base`config, base`lastError, this`sent
      ensures var c := CheckSetting(modelInfo, old(base.config), channel, value, volts, transport);
        && ok == (connected && c == Accepted)
        && base.config == (if ok then old(base.config)[ChannelKey(if volts then "voltage" else "current_limit", channel) := VReal(value)]
                           else old(base.config))
        && base.lastError == (if !connected || c == Accepted then old(base.lastError)
                              else Some((if volts then "Set voltage failed: " else "Set current limit failed: ") + CheckText(c, volts, channel, value, show)))
        && sent == (if connected && (c == Accepted || c.TransportFailed?) then old(sent) + [(channel, if volts then "voltage" else "current_limit", VReal(value))]
                    else old(sent))
    {
      if !connected {
        return false;
      }
      var c := CheckSetting(modelInfo, base.config, channel, value, volts, transport);
      var prefix := if volts then "voltage" else "current_limit";
      if c == Accepted || c.TransportFailed? {
        sent := sent + [(channel, prefix, VReal(value))];
      }
      if c == Accepted {
        base.config := base.config[ChannelKey(prefix, channel) := VReal(value)];
        ok := true;
      } else {
        base.SetLastError((if volts then "Set voltage failed: " else "Set current limit failed: ") + CheckText(c, volts, channel, value, show));
        ok := false;
      }
    }

    /** `set_voltage`; `show` is Python's `str` of a float, used in the recorded error text. */
    method SetVoltage(voltage: real, channel: int, connected: bool, transport: Transport, show: real -> string) returns (ok: bool)
      modifies base`config, base`lastError, this`sent
      ensures var c := CheckSetting(modelInfo, old(base.config), channel, voltage, true, transport);
        && ok == (connected && c == Accepted)
        && base.config == (if ok then old(base.config)[ChannelKey("voltage", channel) := VReal(voltage)] else old(base.config))
        && base.lastError == (if !connected || c == Accepted then old(base.lastError)
                              else Some("Set voltage failed: " + CheckText(c, true, channel, voltage, show)))
        && sent == (if connected && (c == Accepted || c.TransportFailed?) then old(sent) + [(channel, "voltage", VReal(voltage))]
                    else old(sent))
    {
      ok := SetChannelValue(voltage, channel, true, connected, transport, show);
    }

    /** `set_current_limit`; `show` is Python's `str` of a float, used in the recorded error text. */
    method SetCurrentLimit(current: real, channel: int, connected: bool, transport: Transport, show: real -> string) returns (ok: bool)
      modifies base`config, base`lastError, this`sent
      ensures var c := CheckSetting(modelInfo, old(base.config), channel, current, false, transport);
        && ok == (connected && c == Accepted)
        && base.config == (if ok then old(base.config)[ChannelKey("current_limit", channel) := VReal(current)] else old(base.config))
        && base.lastError == (if !connected || c == Accepted then old(base.lastError)
                              else Some("Set current limit failed: " + CheckText(c, false, channel, current, show)))
        && sent == (if connected && (c == Accepted || c.TransportFailed?) then old(sent) + [(channel, "current_limit", VReal(current))]
                    else old(sent))
    {
      ok := SetChannelValue(current, channel, false, connected, transport, show);
    }

    /** `enable_output`. */
    method EnableOutput(enabled: bool, connected: bool, transport: Transport) returns (ok: bool)
      modifies base`config, base`lastError
      ensures ok == (connected && transport == Done)
      ensures base.config == if ok then old(base.config)["output_enabled" := VBool(enabled)] else old(base.config)
      ensures base.lastError == if connected && transport.Raised? then Some("Output control failed: " + transport.message) else old(base.lastError)
    {
      if !connected {
        return false;
      }
      if transport.Raised? {
        base.SetLastError("Output control failed: " + transport.message);
        return false;
      }
      base.config := base.config["output_enabled" := VBool(enabled)];
      ok := true;
    }

    /** `emergency_stop`: turns the output off whenever a session exists. */
    method EmergencyStop(transport: Transport) returns (ok: bool)
      modifies base`config
      ensures ok == (!hasSession || transport == Done)
      ensures base.config == if hasSession && transport == Done then old(base.config)["output_enabled" := VBool(false)] else old(base.config)
    {
      if hasSession {
        if transport.Raised? {
          return false;
        }
        base.config := base.config["output_enabled" := VBool(false)];
      }
      ok := true;
    }

    /** `get_output_status`. */
    method GetOutputStatus(connected: bool) returns (r: Dict)
      modifies base`lastError
      ensures r == OutputStatus(base.config, numChannels, connected)
      ensures var missing := FirstMissing(StatusKeys(numChannels), base.config);
        base.lastError == if connected && missing.Some? then Some("Get status failed: " + KeyErrorText(missing.value))
                          else old(base.lastError)
    {
      r := OutputStatus(base.config, numChannels, connected);
      var missing := FirstMissing(StatusKeys(numChannels), base.config);
      if connected && missing.Some? {
        base.SetLastError("Get status failed: " + KeyErrorText(missing.value));
      }
    }
  }

  /** The keys `get_output_status` reads for one channel. */
  predicate HasChannelKeys(config: Dict, channel: int)
  {
    ChannelKey("voltage", channel) in config && ChannelKey("current_limit", channel) in config
    && ChannelKey("range", channel) in config
  }

  function ChannelStatus(config: Dict, channel: int): Value
    requires HasChannelKeys(config, channel)
  {
    VDict(map["voltage_set" := config[ChannelKey("voltage", channel)],
              "current_limit" := config[ChannelKey("current_limit", channel)],
              "range" := config[ChannelKey("range", channel)]])
  }

  /** The dictionary `get_output_status` builds; `{}` when not connected or a key is missing. */
  function OutputStatus(config: Dict, numChannels: nat, connected: bool): (r: Dict)
  {
    if !connected || "output_enabled" !in config || !HasChannelKeys(config, 1)
       || (numChannels > 1 && !HasChannelKeys(config, 2)) then map[]
    else
      var one := map["output_enabled" := config["output_enabled"], "num_channels" := VInt(numChannels),
                     "channel_1" := ChannelStatus(config, 1)];
      if numChannels > 1 then one["channel_2" := ChannelStatus(config, 2)] else one
  }

  /** The keys `get_output_status` reads, in the order it reads them. */
  function StatusKeys(numChannels: nat): seq<string>
  {
    ["output_enabled", ChannelKey("voltage", 1), ChannelKey("current_limit", 1), ChannelKey("range", 1)]
    + (if numChannels > 1 then [ChannelKey("voltage", 2), ChannelKey("current_limit", 2), ChannelKey("range", 2)] else [])
  }

  /** The first of `keys` that the configuration lacks: the one whose `KeyError` is raised. */
  function FirstMissing(keys: seq<string>, config: Dict): (r: Option<string>)
    ensures r.Some? ==> r.value in keys && r.value !in config
    ensures r.None? ==> forall k :: k in keys ==> k in config
  {
    if keys == [] then None
    else if keys[0] !in config then Some(keys[0])
    else FirstMissing(keys[1..], config)
  }

  /** Connected, the status is empty exactly when a key it reads is missing, the one named in the error. */
  lemma StatusEmptyIffKeyMissing(config: Dict, numChannels: nat)
    ensures OutputStatus(config, numChannels, true) == map[] <==> FirstMissing(StatusKeys(numChannels), config).Some?
  {
    var keys := StatusKeys(numChannels);
    if FirstMissing(keys, config).None? {
      assert keys[0] in keys && keys[1] in keys && keys[2] in keys && keys[3] in keys;
      if numChannels > 1 {
        assert keys[4] in keys && keys[5] in keys && keys[6] in keys;
      }
      assert "output_enabled" in OutputStatus(config, numChannels, true);
    }
  }

  /** A connected supply reports `channel_2` exactly when the model has two channels. */
  lemma ChannelTwoIffTwoChannels(config: Dict, numChannels: nat)
    requires "output_enabled" in config && HasChannelKeys(config, 1) && HasChannelKeys(config, 2)
    ensures "channel_2" in OutputStatus(config, numChannels, true) <==> numChannels > 1
    ensures OutputStatus(config, numChannels, true)["num_channels"] == VInt(numChannels)
  {
  }

  /** Not connected, the status is empty. */
  lemma DisconnectedStatusEmpty(config: Dict, numChannels: nat)
    ensures OutputStatus(config, numChannels, false) == map[]
  {
  }

  /** The single-channel models are exactly those whose channel-2 defaults are `None`. */
  lemma SingleChannelDefaults(modelName: string)
    ensures var info := ModelInfoFor(Lower(modelName));
      (info.numOutputChannels == 1) <==> SupplyDefaults(info.numOutputChannels)["voltage_channel_2"] == VNone
  {
  }

  /** An unknown model behaves as the e3640a: one channel, 8 V / 3 A and 20 V / 1.5 A. */
  lemma UnknownModelFallsBack(model: string)
    requires model !in {"e3640a", "e3646a", "e3648a"}
    ensures ModelInfoFor(model) == ModelInfo(1, RangeLimits(8.0, 3.0), RangeLimits(20.0, 1.5))
  {
  }
}
