/*
 * AgilentDMMEquipment: a digital multimeter on a VISA session. The
 * configuration names a measurement function; applying it selects that
 * function on the meter when the name is known, and pushes a fixed range
 * only when auto-ranging is off for a voltage or current function.
 *
 * The VISA session is an oracle: `connected` is what `is_connected`
 * answers, and each meter call's `Transport` whether it returned or raised.
 */
module AgilentDmm {
  import opened Common
  import BaseEquipment

  /** `MEASUREMENT_FUNCTIONS`: configuration name to SCPI function. */
  function ScpiFunction(name: string): Option<string>
  {
    if name == "voltage_dc" then Some("VOLTage:DC")
    else if name == "voltage_ac" then Some("VOLTage:AC")
    else if name == "current_dc" then Some("CURRent:DC")
    else if name == "current_ac" then Some("CURRent:AC")
    else if name == "resistance" then Some("RESistance")
    else if name == "fresistance" then Some("FRESistance")
    else if name == "capacitance" then Some("CAPacitance")
    else if name == "continuity" then Some("CONTinuity")
    else if name == "diode" then Some("DIODe")
    else if name == "frequency" then Some("FREQuency")
    else if name == "period" then Some("PERiod")
    else if name == "temperature" then Some("TEMPerature")
    else None
  }

  /** `_get_measurement_units`: the unit of a function, `''` for any other name. */
  function Units(name: string): string
  {
    if name in {"voltage_dc", "voltage_ac", "diode"} then "V"
    else if name in {"current_dc", "current_ac"} then "A"
    else if name in {"resistance", "fresistance", "continuity"} then "Ω"
    else if name == "capacitance" then "F"
    else if name == "frequency" then "Hz"
    else if name == "period" then "s"
    else if name == "temperature" then "°C"
    else ""
  }

  /** Every known function has a unit, and a name has a unit only if it is a known function. */
  lemma UnitsCoverFunctions(name: string)
    ensures Units(name) != "" <==> ScpiFunction(name).Some?
  {
  }

  /** The keys the meter adds to the base defaults. */
  function DmmDefaults(): (d: Dict)
  {
    map["measurement_function" := VStr("voltage_dc"), "auto_range" := VBool(true), "range" := VReal(10.0),
        "aperture" := VReal(0.02), "trigger_source" := VStr("immediate"), "sample_count" := VInt(1),
        "display_enabled" := VBool(true)]
  }

  /** The seven keys the meter adds to the base defaults. */
  lemma DmmDefaultsKeys()
    ensures DmmDefaults().Keys == {"measurement_function", "auto_range", "range", "aperture", "trigger_source", "sample_count", "display_enabled"}
  {
  }

  /** A call made on the meter. */
  datatype MeterCall = SetFunction(scpi: string) | SetRange(range: Value) | SetCurrentRange(range: Value)

  datatype Transport = Done | Raised(message: string)

  /** The result of `apply_config`: its flag, the current function after it, the meter calls, the error recorded. */
  datatype Applied = Applied(ok: bool, current: string, calls: seq<MeterCall>, error: Option<string>)

  /** The function name the configuration selects, when it is a known one. */
  function SelectedFunction(config: Dict): Option<string>
  {
    if "measurement_function" in config && config["measurement_function"].VStr?
       && ScpiFunction(config["measurement_function"].s).Some?
    then Some(config["measurement_function"].s) else None
  }

  /** A value `dict.get` cannot look up: lists and dictionaries are unhashable. */
  predicate Unhashable(v: Value)
  {
    v.VList? || v.VDict?
  }

  /**
   * `apply_config`. A missing key or an unhashable function name raises
   * inside the `try` and is recorded; `functionCall` and `rangeCall` are what
   * `set_measurement_func` and the range call did. A call that raised was
   * still made, so it is listed.
   */
  function Apply(config: Dict, current: string, connected: bool, functionCall: Transport, rangeCall: Transport): (a: Applied)
  {
    if !connected then Applied(false, current, [], Some("DMM not connected"))
    else if "measurement_function" !in config then
      Applied(false, current, [], Some("Configuration failed: " + KeyErrorText("measurement_function")))
    else if Unhashable(config["measurement_function"]) then
      Applied(false, current, [], Some("Configuration failed: unhashable type: '" + PyTypeName(config["measurement_function"]) + "'"))
    else
      var sel := SelectedFunction(config);
      var calls1 := if sel.Some? then [SetFunction(ScpiFunction(sel.value).value)] else [];
      if sel.Some? && functionCall.Raised? then Applied(false, current, calls1, Some("Configuration failed: " + functionCall.message))
      else
        var cur := if sel.Some? then sel.value else current;
        if "auto_range" !in config then Applied(false, cur, calls1, Some("Configuration failed: " + KeyErrorText("auto_range")))
        else if IsTruthy(config["auto_range"]) then Applied(true, cur, calls1, None)
        else if !Contains(cur, "voltage") && !Contains(cur, "current") then Applied(true, cur, calls1, None)
        else if "range" !in config then Applied(false, cur, calls1, Some("Configuration failed: " + KeyErrorText("range")))
        else
          var push := if Contains(cur, "voltage") then SetRange(config["range"]) else SetCurrentRange(config["range"]);
          if rangeCall.Raised? then Applied(false, cur, calls1 + [push], Some("Configuration failed: " + rangeCall.message))
          else Applied(true, cur, calls1 + [push], None)
  }

  /** A name outside the function map leaves the current function as it was. */
  lemma UnknownFunctionKeepsCurrent(config: Dict, current: string, connected: bool, functionCall: Transport, rangeCall: Transport)
    requires SelectedFunction(config).None?
    ensures Apply(config, current, connected, functionCall, rangeCall).current == current
    ensures forall c :: c in Apply(config, current, connected, functionCall, rangeCall).calls ==> !c.SetFunction?
  {
  }

  /** A known name becomes the current function once the meter accepts it, whatever the range call does. */
  lemma KnownFunctionSelected(config: Dict, current: string, rangeCall: Transport)
    requires SelectedFunction(config).Some?
    ensures Apply(config, current, true, Done, rangeCall).current == SelectedFunction(config).value
    ensures Apply(config, current, true, Done, rangeCall).calls[0] == SetFunction(ScpiFunction(SelectedFunction(config).value).value)
  {
  }

  /** The function is switched and then the range call raises: the switch stays, and the failure is recorded. */
  lemma RangeRaisesAfterSwitch(config: Dict, current: string, message: string)
    requires SelectedFunction(config) == Some("voltage_dc")
    requires "auto_range" in config && !IsTruthy(config["auto_range"]) && "range" in config
    ensures var a := Apply(config, current, true, Done, Raised(message));
      && !a.ok && a.current == "voltage_dc"
      && a.calls == [SetFunction("VOLTage:DC"), SetRange(config["range"])]
      && a.error == Some("Configuration failed: " + message)
  {
    PrefixContains("voltage_dc", "voltage");
  }

  /** A list given as the function name raises `TypeError` before any meter call. */
  lemma UnhashableFunctionRaises(config: Dict, current: string, functionCall: Transport, rangeCall: Transport)
    requires "measurement_function" in config && config["measurement_function"].VList?
    ensures var a := Apply(config, current, true, functionCall, rangeCall);
      !a.ok && a.current == current && a.calls == [] && a.error == Some("Configuration failed: unhashable type: 'list'")
  {
    assert "Configuration failed: unhashable type: '" + "list" + "'" == "Configuration failed: unhashable type: 'list'";
  }

  /** A range call is made only with auto-range off, a voltage or current function, and the function call not raising. */
  lemma RangePushedOnlyWhenManual(config: Dict, current: string, connected: bool, functionCall: Transport, rangeCall: Transport)
    ensures var a := Apply(config, current, connected, functionCall, rangeCall);
      (exists c :: c in a.calls && !c.SetFunction?) <==>
        (connected && "measurement_function" in config && !Unhashable(config["measurement_function"])
         && "auto_range" in config && "range" in config
         && !IsTruthy(config["auto_range"]) && (SelectedFunction(config).None? || functionCall == Done)
         && (Contains(a.current, "voltage") || Contains(a.current, "current")))
  {
    var a := Apply(config, current, connected, functionCall, rangeCall);
    if connected && "measurement_function" in config && !Unhashable(config["measurement_function"])
       && "auto_range" in config && "range" in config
       && !IsTruthy(config["auto_range"]) && (SelectedFunction(config).None? || functionCall == Done)
       && (Contains(a.current, "voltage") || Contains(a.current, "current")) {
      assert a.calls[|a.calls| - 1] in a.calls;
    }
  }

  /** The measurement helpers, each with the function name it selects. */
  datatype Helper = VoltageDc | VoltageAc | CurrentDc | CurrentAc | Resistance | Resistance4Wire

  function HelperFunction(h: Helper): (name: string)
    ensures ScpiFunction(name).Some?
  {
    match h
    case VoltageDc => "voltage_dc"
    case VoltageAc => "voltage_ac"
    case CurrentDc => "current_dc"
    case CurrentAc => "current_ac"
    case Resistance => "resistance"
    case Resistance4Wire => "fresistance"
  }

  class Dmm {
    const base: BaseEquipment.Equipment
    /** `_current_function`. */
    var currentFunction: string
    /** The calls made on the meter, in order. */
    var calls: seq<MeterCall>

    constructor (visaAddress: string, name: string)
      ensures base.defaultConfig == BaseEquipment.DefaultConfig() + DmmDefaults()
      ensures base.config == base.defaultConfig
      ensures currentFunction == "voltage_dc" && calls == []
      ensures fresh(base)
    {
      base := new BaseEquipment.Equipment(name, BaseEquipment.Ethernet);
      currentFunction := "voltage_dc";
      calls := [];
      new;
      base.UpdateDefaultConfig(DmmDefaults());
      BaseEquipment.MergeAgain(BaseEquipment.DefaultConfig(), DmmDefaults());
      base.UpdateConfig(base.defaultConfig);
    }

    method ApplyConfig(connected: bool, functionCall: Transport, rangeCall: Transport) returns (ok: bool)
      modifies this`currentFunction, this`calls, base`lastError
      ensures var a := Apply(base.config, old(currentFunction), connected, functionCall, rangeCall);
        && ok == a.ok && currentFunction == a.current && calls == old(calls) + a.calls
        && base.lastError == (if a.error.Some? then a.error else old(base.lastError))
    {
      var a := Apply(base.config, currentFunction, connected, functionCall, rangeCall);
      currentFunction := a.current;
      calls := calls + a.calls;
      if a.error.Some? {
        base.SetLastError(a.error.value);
      }
      ok := a.ok;
    }

    method GetMeasurementUnits() returns (u: string)
      ensures u == Units(currentFunction)
    {
      u := Units(currentFunction);
    }

    /** `set_range`: stores the range, turns auto-range off, applies. */
    method SetRangeTo(range: Value, connected: bool, functionCall: Transport, rangeCall: Transport)
      modifies base`config, this`currentFunction, this`calls, base`lastError
      ensures base.config == old(base.config)["range" := range]["auto_range" := VBool(false)]
      ensures var a := Apply(base.config, old(currentFunction), connected, functionCall, rangeCall);
        && currentFunction == a.current && calls == old(calls) + a.calls
        && base.lastError == (if a.error.Some? then a.error else old(base.lastError))
    {
      base.config := base.config["range" := range]["auto_range" := VBool(false)];
      var _ := ApplyConfig(connected, functionCall, rangeCall);
    }

    /** `set_auto_range`. */
    method SetAutoRange(enabled: bool, connected: bool, functionCall: Transport, rangeCall: Transport)
      modifies base`config, this`currentFunction, this`calls, base`lastError
      ensures base.config == old(base.config)["auto_range" := VBool(enabled)]
      ensures var a := Apply(base.config, old(currentFunction), connected, functionCall, rangeCall);
        && currentFunction == a.current && calls == old(calls) + a.calls
        && base.lastError == (if a.error.Some? then a.error else old(base.lastError))
    {
      base.config := base.config["auto_range" := VBool(enabled)];
      var _ := ApplyConfig(connected, functionCall, rangeCall);
    }

    /** The configuration step of each `measure_*` helper, taken before `measure()` runs. */
    method SelectHelper(h: Helper)
      modifies base`config
      ensures base.config == old(base.config)["measurement_function" := VStr(HelperFunction(h))]
      ensures SelectedFunction(base.config) == Some(HelperFunction(h))
    {
      base.config := base.config["measurement_function" := VStr(HelperFunction(h))];
    }
  }

  /** A name that starts with `needle` contains it. */
  lemma PrefixContains(haystack: string, needle: string)
    requires |needle| <= |haystack| && haystack[..|needle|] == needle
    ensures Contains(haystack, needle)
  {
  }

  /** After `set_range` a connected meter with a voltage or current function receives that range. */
  lemma SetRangeReachesMeter(config: Dict, current: string, range: Value)
    requires SelectedFunction(config) in {Some("voltage_dc"), Some("voltage_ac"), Some("current_dc"), Some("current_ac")}
    ensures var c := config["range" := range]["auto_range" := VBool(false)];
      var a := Apply(c, current, true, Done, Done);
      a.ok && a.calls[|a.calls| - 1] in {SetRange(range), SetCurrentRange(range)}
  {
    var c := config["range" := range]["auto_range" := VBool(false)];
    assert SelectedFunction(c) == SelectedFunction(config);
    var cur := SelectedFunction(c).value;
    if cur[..7] == "voltage" {
      PrefixContains(cur, "voltage");
    } else {
      PrefixContains(cur, "current");
    }
  }
}
