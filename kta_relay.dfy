/*
 * KTARelayEquipment: a KTA-223 relay board on a serial line. Commands are
 * ASCII lines ending in CR LF; a relay's stored state changes only when the
 * board answers with a line containing "OK".
 *
 * The serial line is an oracle: `probe` is the stripped line the board
 * answers to the `getversion` probe of `is_connected`, `line` the stripped
 * line it answers to the command itself ("" when nothing is read).
 */
module KtaRelay {
  import opened Common
  import BaseEquipment

  const RelayStateOff: string := "connect_normal_closed"
  const RelayStateOn: string := "connect_normal_open"

  /** The keys the relay board adds to the base defaults: eight relays, all off. */
  function RelayDefaults(): (d: Dict)
  {
    map["num_relays" := VInt(8), "relay_states" := VList(seq(8, _ => VBool(false))),
        "voltage_monitoring" := VBool(true), "auto_response" := VBool(true)]
  }

  /** The four keys the relay board adds to the base defaults. */
  lemma RelayDefaultsKeys()
    ensures RelayDefaults().Keys == {"num_relays", "relay_states", "voltage_monitoring", "auto_response"}
  {
  }

  function DefaultLabels(): (r: seq<string>)
    ensures |r| == 8 && forall i :: 0 <= i < 8 ==> r[i] == "Relay_" + IntText(i + 1)
  {
    seq(8, i => "Relay_" + IntText(i + 1))
  }

  /** `config['num_relays']` as `range()` takes it: an int (a bool counts as 0 or 1); anything else raises. */
  function NumRelays(config: Dict): Option<int>
  {
    if "num_relays" !in config then None
    else match config["num_relays"]
      case VInt(n) => Some(n)
      case VBool(b) => Some(if b then 1 else 0)
      case _ => None
  }

  /** What a Python expression did: gave a value, or raised an exception with this `str(e)`. */
  datatype Outcome<T> = Returned(value: T) | Raised(text: string)

  /**
   * `relay_number > self.config['num_relays']`, evaluated once `relay_number >= 1`:
   * a missing key raises `KeyError`, a number (int, bool or float) compares,
   * and any other value raises `TypeError`.
   */
  function AboveCount(config: Dict, relay: int): (r: Outcome<bool>)
    ensures NumRelays(config).Some? ==> r == Returned(relay > NumRelays(config).value)
  {
    if "num_relays" !in config then Raised(KeyErrorText("num_relays"))
    else match config["num_relays"]
      case VInt(n) => Returned(relay > n)
      case VBool(b) => Returned(relay > (if b then 1 else 0))
      case VReal(x) => Returned(relay as real > x)
      case v => Raised("'>' not supported between instances of 'int' and '" + PyTypeName(v) + "'")
  }

  /** `len(labels) == self.config['num_relays']`: a missing key raises; numbers compare by value. */
  function CountIs(config: Dict, count: nat): Outcome<bool>
  {
    if "num_relays" !in config then Raised(KeyErrorText("num_relays"))
    else match config["num_relays"]
      case VInt(n) => Returned(count == n)
      case VBool(b) => Returned(count == (if b then 1 else 0))
      case VReal(x) => Returned(count as real == x)
      case _ => Returned(false)
  }

  /** The bytes `_send_command` writes for a command. */
  function Frame(command: string): string
  {
    command + "\r\n"
  }

  function RelayCommand(relay: int, state: bool): string
  {
    "setrelaystate " + IntText(relay) + " " + (if state then RelayStateOn else RelayStateOff)
  }

  /** `_read_response`: the stripped line, or `None` when it is empty or no port is open. */
  function Response(portOpen: bool, line: string): Option<string>
  {
    if !portOpen || line == "" then None else Some(line)
  }

  /** `is_connected`: an open port that answers the `getversion` probe. */
  predicate Connected(portOpen: bool, probe: string)
  {
    portOpen && Response(portOpen, probe).Some?
  }

  /** What the probe of `is_connected` writes. */
  function ProbeFrames(portOpen: bool): seq<string>
  {
    if portOpen then [Frame("getversion")] else []
  }

  /** One call of `set_relay_state` or `get_relay_state`: its result, the new config, what it wrote, the error it recorded. */
  datatype RelayStep<R> = RelayStep(result: R, config: Dict, frames: seq<string>, error: Option<string>)

  /**
   * `self.config['relay_states'][relay_number - 1] = state` for a relay in
   * range: the new configuration, or the text of what it raises. A
   * dictionary accepts the integer key, which this string-keyed model does
   * not represent, so that case leaves the configuration as it was.
   */
  function StoreState(config: Dict, relay: int, state: bool): Outcome<Dict>
    requires relay >= 1
  {
    if "relay_states" !in config then Raised(KeyErrorText("relay_states"))
    else match config["relay_states"]
      case VList(items) =>
        if relay - 1 < |items| then Returned(config["relay_states" := VList(items[relay - 1 := VBool(state)])])
        else Raised("list assignment index out of range")
      case VDict(_) => Returned(config)
      case v => Raised("'" + PyTypeName(v) + "' object does not support item assignment")
  }

  /** `set_relay_state`. */
  function SetRelay(config: Dict, portOpen: bool, probe: string, relay: int, state: bool, line: string): RelayStep<bool>
  {
    var probed := ProbeFrames(portOpen);
    var invalid := "Set relay state failed: Invalid relay number " + IntText(relay);
    if !Connected(portOpen, probe) then RelayStep(false, config, probed, None)
    else if relay < 1 then RelayStep(false, config, probed, Some(invalid))
    else match AboveCount(config, relay)
      case Raised(m) => RelayStep(false, config, probed, Some("Set relay state failed: " + m))
      case Returned(above) =>
        if above then RelayStep(false, config, probed, Some(invalid))
        else
          var frames := probed + [Frame(RelayCommand(relay, state))];
          var response := Response(portOpen, line);
          if response.Some? && Contains(response.value, "OK") then
            match StoreState(config, relay, state)
            case Returned(c) => RelayStep(true, c, frames, None)
            case Raised(m) => RelayStep(false, config, frames, Some("Set relay state failed: " + m))
          else RelayStep(false, config, frames, None)
  }

  /** `get_relay_state`: `Some(on)` from the board's answer, `None` on any failure. */
  function GetRelay(config: Dict, portOpen: bool, probe: string, relay: int, line: string): RelayStep<Option<bool>>
  {
    var probed := ProbeFrames(portOpen);
    var invalid := "Get relay state failed: Invalid relay number " + IntText(relay);
    if !Connected(portOpen, probe) then RelayStep(None, config, probed, None)
    else if relay < 1 then RelayStep(None, config, probed, Some(invalid))
    else match AboveCount(config, relay)
      case Raised(m) => RelayStep(None, config, probed, Some("Get relay state failed: " + m))
      case Returned(above) =>
        if above then RelayStep(None, config, probed, Some(invalid))
        else
          var frames := probed + [Frame("getrelaystate " + IntText(relay))];
          var response := Response(portOpen, line);
          if response.Some? then RelayStep(Some(Contains(response.value, RelayStateOn)), config, frames, None)
          else RelayStep(None, config, frames, None)
  }

  /** Relay 0 and below are refused before `num_relays` is read, whatever the configuration holds. */
  lemma LowRelayRefusedFirst(config: Dict, portOpen: bool, probe: string, relay: int, state: bool, line: string)
    requires Connected(portOpen, probe) && relay < 1
    ensures SetRelay(config, portOpen, probe, relay, state, line).error == Some("Set relay state failed: Invalid relay number " + IntText(relay))
    ensures GetRelay(config, portOpen, probe, relay, line).error == Some("Get relay state failed: Invalid relay number " + IntText(relay))
    ensures SetRelay(config, portOpen, probe, relay, state, line).frames == ProbeFrames(portOpen)
  {
  }

  /** A float relay count compares by value: 8.0 accepts relay 8 and refuses relay 9. */
  lemma FloatCountCompares(config: Dict)
    requires "num_relays" in config && config["num_relays"] == VReal(8.0)
    ensures AboveCount(config, 8) == Returned(false) && AboveCount(config, 9) == Returned(true)
    ensures CountIs(config, 8) == Returned(true)
  {
  }

  /** A relay number outside 1..num_relays is refused before any command is written, and the states stay. */
  lemma OutOfRangeRelayRefused(config: Dict, portOpen: bool, probe: string, relay: int, state: bool, line: string)
    requires Connected(portOpen, probe)
    requires relay < 1 || AboveCount(config, relay) == Returned(true)
    ensures var s := SetRelay(config, portOpen, probe, relay, state, line);
      !s.result && s.config == config && s.frames == ProbeFrames(portOpen)
      && s.error == Some("Set relay state failed: Invalid relay number " + IntText(relay))
  {
  }

  /** The stored state changes only on an "OK" answer, and then only at that relay's slot. */
  lemma StoredOnlyOnOk(config: Dict, portOpen: bool, probe: string, relay: int, state: bool, line: string)
    ensures var s := SetRelay(config, portOpen, probe, relay, state, line);
      && (s.config != config ==> s.result)
      && (!Contains(line, "OK") ==> !s.result && s.config == config)
      && (s.result ==> Contains(line, "OK"))
      && (s.result && config["relay_states"].VList? ==>
                       && s.config.Keys == config.Keys
                       && (forall k :: k in config && k != "relay_states" ==> s.config[k] == config[k])
                       && |s.config["relay_states"].items| == |config["relay_states"].items|
                       && s.config["relay_states"].items[relay - 1] == VBool(state)
                       && (forall j :: 0 <= j < |config["relay_states"].items| && j != relay - 1 ==>
                             s.config["relay_states"].items[j] == config["relay_states"].items[j]))
  {
  }

  /** A relay command in range writes exactly the probe and `setrelaystate <n> <state>` with CR LF. */
  lemma CommandWritten(config: Dict, portOpen: bool, probe: string, relay: int, state: bool, line: string)
    requires Connected(portOpen, probe) && 1 <= relay && AboveCount(config, relay) == Returned(false)
    ensures SetRelay(config, portOpen, probe, relay, state, line).frames ==
      [Frame("getversion"), "setrelaystate " + IntText(relay) + " " + (if state then "connect_normal_open" else "connect_normal_closed") + "\r\n"]
  {
  }

  /** The OFF answer does not contain the ON text, so the two states are told apart. */
  lemma OffIsNotOn()
    ensures !Contains(RelayStateOff, RelayStateOn)
    ensures Contains(RelayStateOn, RelayStateOn)
  {
    var off := RelayStateOff;
    assert off[..19] != RelayStateOn by { assert off[15] != RelayStateOn[15]; }
    assert off[1..][..19] != RelayStateOn by { assert off[1] != RelayStateOn[0]; }
    assert off[1..][1..][..19] != RelayStateOn by { assert off[2] != RelayStateOn[0]; }
    assert |off[1..][1..][1..]| < 19;
    assert RelayStateOn[..19] == RelayStateOn;
  }

  /** The default relay board has eight relays, all off. */
  lemma DefaultsEightOff()
    ensures NumRelays(RelayDefaults()) == Some(8)
    ensures var items := RelayDefaults()["relay_states"].items; |items| == 8 && forall i :: 0 <= i < 8 ==> items[i] == VBool(false)
  {
  }

  /** The frames written by the queries of relays 1..k, in order. */
  function QueriedFrames(config: Dict, portOpen: bool, probe: int -> string, line: int -> string, k: nat): seq<string>
  {
    if k == 0 then []
    else QueriedFrames(config, portOpen, probe, line, k - 1) + GetRelay(config, portOpen, probe(k), k, line(k)).frames
  }

  /** The states read by the queries of relays 1..k, a failed query read as off. */
  function QueriedStates(config: Dict, portOpen: bool, probe: int -> string, line: int -> string, k: nat): (r: seq<bool>)
    ensures |r| == k
  {
    if k == 0 then []
    else QueriedStates(config, portOpen, probe, line, k - 1) + [GetRelay(config, portOpen, probe(k), k, line(k)).result == Some(true)]
  }

  lemma {:induction false} QueriedStatesAt(config: Dict, portOpen: bool, probe: int -> string, line: int -> string, k: nat)
    ensures forall j :: 0 <= j < k ==>
      QueriedStates(config, portOpen, probe, line, k)[j] == (GetRelay(config, portOpen, probe(j + 1), j + 1, line(j + 1)).result == Some(true))
  {
    if k > 0 {
      QueriedStatesAt(config, portOpen, probe, line, k - 1);
    }
  }

  /** The error recorded last by the queries of relays 1..k, or `start` when none records one. */
  function ErrorAfterQueries(config: Dict, portOpen: bool, probe: int -> string, line: int -> string, k: nat, start: Option<string>): Option<string>
  {
    if k == 0 then start
    else
      var e := GetRelay(config, portOpen, probe(k), k, line(k)).error;
      if e.Some? then e else ErrorAfterQueries(config, portOpen, probe, line, k - 1, start)
  }

  class Relay {
    const base: BaseEquipment.Equipment
    /** `self._serial_port` exists and is open. */
    var portOpen: bool
    /** Everything written to the serial line, in order. */
    var written: seq<string>
    var relayLabels: seq<string>

    constructor (comPort: string, baudRate: int, name: string)
      ensures base.defaultConfig == BaseEquipment.DefaultConfig() + RelayDefaults()
      ensures base.config == base.defaultConfig
      ensures base.status == BaseEquipment.Disconnected && base.measurementData == []
      ensures relayLabels == DefaultLabels()
      ensures !portOpen && written == []
      ensures fresh(base)
    {
      base := new BaseEquipment.Equipment(name, BaseEquipment.Serial);
      portOpen := false;
      written := [];
      relayLabels := DefaultLabels();
      new;
      base.UpdateDefaultConfig(RelayDefaults());
      BaseEquipment.MergeAgain(BaseEquipment.DefaultConfig(), RelayDefaults());
      base.UpdateConfig(base.defaultConfig);
    }

    /** `_send_command`: raises without a port, else writes the command and CR LF. */
    method SendCommand(command: string) returns (raised: Option<string>)
      modifies this`written
      ensures raised == if portOpen then None else Some("Serial port not open")
      ensures written == if portOpen then old(written) + [Frame(command)] else old(written)
    {
      if !portOpen {
        return Some("Serial port not open");
      }
      written := written + [Frame(command)];
      raised := None;
    }

    method SetRelayState(relay: int, state: bool, probe: string, line: string) returns (ok: bool)
      modifies this`written, base`config, base`lastError
      ensures var s := SetRelay(old(base.config), portOpen, probe, relay, state, line);
        && ok == s.result && base.config == s.config
        && written == old(written) + s.frames
        && base.lastError == (if s.error.Some? then s.error else old(base.lastError))
    {
      var s := SetRelay(base.config, portOpen, probe, relay, state, line);
      written := written + s.frames;
      base.config := s.config;
      if s.error.Some? {
        base.SetLastError(s.error.value);
      }
      ok := s.result;
    }

    method GetRelayState(relay: int, probe: string, line: string) returns (r: Option<bool>)
      modifies this`written, base`lastError
      ensures var s := GetRelay(base.config, portOpen, probe, relay, line);
        && r == s.result
        && written == old(written) + s.frames
        && base.lastError == (if s.error.Some? then s.error else old(base.lastError))
    {
      var s := GetRelay(base.config, portOpen, probe, relay, line);
      written := written + s.frames;
      if s.error.Some? {
        base.SetLastError(s.error.value);
      }
      r := s.result;
    }

    /**
     * `get_all_relay_states`: one query per relay, a failed query read as off.
     * `None` is the exception `range` raises when `num_relays` is missing or not an integer.
     */
    method GetAllRelayStates(probe: int -> string, line: int -> string) returns (r: Option<seq<bool>>)
      modifies this`written, base`lastError
      ensures r.None? <==> NumRelays(base.config).None?
      ensures r.Some? ==>
        var n := NumRelays(base.config).value;
        && |r.value| == (if n < 0 then 0 else n)
        && forall j :: 0 <= j < |r.value| ==>
             r.value[j] == (GetRelay(base.config, portOpen, probe(j + 1), j + 1, line(j + 1)).result == Some(true))
      ensures var k := if r.Some? then |r.value| else 0;
        && written == old(written) + QueriedFrames(base.config, portOpen, probe, line, k)
        && base.lastError == ErrorAfterQueries(base.config, portOpen, probe, line, k, old(base.lastError))
    {
      var count := NumRelays(base.config);
      if count.None? {
        return None;
      }
      var states := QueryRelays(probe, line, if count.value < 0 then 0 else count.value);
      QueriedStatesAt(base.config, portOpen, probe, line, |states|);
      r := Some(states);
    }

    /** The loop of `get_all_relay_states` over relays 1..k. */
    method QueryRelays(probe: int -> string, line: int -> string, k: nat) returns (states: seq<bool>)
      modifies this`written, base`lastError
      ensures states == QueriedStates(base.config, portOpen, probe, line, k)
      ensures written == old(written) + QueriedFrames(base.config, portOpen, probe, line, k)
      ensures base.lastError == ErrorAfterQueries(base.config, portOpen, probe, line, k, old(base.lastError))
    {
      ghost var cfg, open, written0 := base.config, portOpen, written;
      states := [];
      var i := 0;
      while i < k
        invariant 0 <= i <= k
        invariant base.config == cfg && portOpen == open
        invariant states == QueriedStates(cfg, open, probe, line, i)
        invariant written == written0 + QueriedFrames(cfg, open, probe, line, i)
        invariant base.lastError == ErrorAfterQueries(cfg, open, probe, line, i, old(base.lastError))
      {
        states := QueryNext(probe, line, i, states, written0, old(base.lastError));
        i := i + 1;
      }
    }

    /** One turn of the loop of `get_all_relay_states`: the query of relay i + 1. */
    method QueryNext(probe: int -> string, line: int -> string, i: nat, states: seq<bool>, ghost written0: seq<string>, ghost start: Option<string>)
      returns (next: seq<bool>)
      modifies this`written, base`lastError
      requires states == QueriedStates(base.config, portOpen, probe, line, i)
      requires written == written0 + QueriedFrames(base.config, portOpen, probe, line, i)
      requires base.lastError == ErrorAfterQueries(base.config, portOpen, probe, line, i, start)
      ensures next == QueriedStates(base.config, portOpen, probe, line, i + 1)
      ensures written == written0 + QueriedFrames(base.config, portOpen, probe, line, i + 1)
      ensures base.lastError == ErrorAfterQueries(base.config, portOpen, probe, line, i + 1, start)
    {
      var s := GetRelayState(i + 1, probe(i + 1), line(i + 1));
      next := states + [if s.Some? then s.value else false];
    }

    /** `set_relay_labels`: accepted only with exactly one label per relay; a missing count raises. */
    method SetRelayLabels(labels: seq<string>) returns (raised: Option<string>)
      modifies this`relayLabels
      ensures raised == (if "num_relays" in base.config then None else Some(KeyErrorText("num_relays")))
      ensures relayLabels == if CountIs(base.config, |labels|) == Returned(true) then labels else old(relayLabels)
    {
      match CountIs(base.config, |labels|)
      case Raised(m) =>
        raised := Some(m);
      case Returned(same) =>
        raised := None;
        if same {
          relayLabels := labels;
        }
    }

    method GetRelayLabels() returns (r: seq<string>)
      ensures r == relayLabels
    {
      r := relayLabels;
    }
  }
}
