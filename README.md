# A Dafny model of the equipment framework and the Conoscope library

This project models two codebases that share one repository and proves
properties of the models.

- **The Python equipment framework.** Every instrument shares one base
  class. It holds a status, an optional last error, a configuration
  dictionary and an append-only log of measurement records. New settings
  are merged into the dictionary first and applied after. A factory builds
  instruments by type name. Three concrete instruments are modelled:
  - an Agilent E364xA power supply, which checks the channel and the range
    ceiling before it writes to the instrument;
  - a KTA-223 relay board, which stores a relay state only when the board
    answers "OK";
  - an Agilent multimeter, which selects a measurement function and a range.
- **The Conoscope C++ library** and its demo and test applications:
  - five event-driven state machines: the application layer, the library
    layer, the two application controllers, and the temperature
    regulation;
  - the camera's capture-status machine;
  - the integer image passes: frame accumulation and averaging, defect
    pixel correction, bias, saturation, band counting, the viewing-angle
    mask, centre and region-of-interest crops, and 2x2 subsampling;
  - the derived sensor geometry;
  - the bi-wheel move planning;
  - the I2C message byte order;
  - the grabber's exposure, timeout and packet arithmetic;
  - exposure-time granularity;
  - the settings file's load and save;
  - the file-name template clean-up, the enum/string tables, and the small
    string and list helpers.

Each source file is one module in a file of its own name. `common.dfy`
holds the shared vocabulary:
- `Option`;
- the Python dynamic values;
- the library's error code (`ClassCommon::Error`);
- a few arithmetic facts, such as C's truncating division.

`qt_text.dfy` models the QString searches that the library relies on.

State the source changes in place becomes a class whose methods state the
whole new state. Pure computations become functions. Loops become methods
with invariants, proved against a specification function.

Each state machine has two parts:
- a pure transition function, with lemmas about it: which events each state
  accepts, where the machine settles, and what a run keeps;
- a class whose `ProcessStateMachine` method follows that function.

Whatever the model cannot see is passed in as a parameter:
- transports (VISA, serial, I2C, the frame grabber SDK): whether the
  device is connected, and what it answers;
- worker results, and what the file system holds.

Integer widths are written out where the source relies on them: 16-bit
pixels, the 32-bit frame accumulator, and byte swaps.

Where the source is evidently wrong (see "## Findings"), the operations
follow the code as written. Beside each one sits a corrected definition,
with the intended property proved about it and a lemma relating the two.

## Model

| member | source | states |
|---|---|---|
| BaseEquipment.StatusValueInjective | base_equipment.py:16-22 | two statuses have the same `.value` text exactly when they are the same status |
| BaseEquipment.DefaultConfigKeys | base_equipment.py:71-77 | the base defaults hold exactly `timeout`, `auto_range`, `measurement_units`, `sample_rate` and `precision` |
| BaseEquipment.MeasurementRecord | base_equipment.py:283-299 | the record holds `timestamp`, `value`, `units` and every metadata key; a metadata key wins over the three base fields, which keep their given values otherwise |
| BaseEquipment.Equipment.constructor | base_equipment.py:51-78 | a new instrument is disconnected, with no last error, an empty log, measurement inactive, and its configuration equal to the default configuration |
| BaseEquipment.Equipment.GetConfig | base_equipment.py:112-119 | the result equals the stored configuration; as a map value it cannot alias it, so changing it leaves the configuration unchanged |
| BaseEquipment.Equipment.UpdateConfig | base_equipment.py:132 | `dict.update`: the new configuration is the old one with every given key set to the given value |
| BaseEquipment.Equipment.SetConfig | base_equipment.py:121-136 | every given key is merged, none refused; the result is the apply step's answer, a raised apply gives false and the "Configuration error: " message, and the merge is kept either way |
| BaseEquipment.Equipment.SetMeasurementActive | base_equipment.py:68 | the measurement-active flag becomes the given value and nothing else changes |
| BaseEquipment.Equipment.SetLastError | base_equipment.py:64 | the last error becomes the given message and nothing else changes |
| BaseEquipment.Equipment.IsMeasuring | base_equipment.py:189-196 | answers the measurement-active flag |
| BaseEquipment.Equipment.GetMeasurementData | base_equipment.py:199-206 | returns the log as it is (a value, so a copy) |
| BaseEquipment.Equipment.ClearData | base_equipment.py:208-210 | the log becomes empty and nothing else changes |
| BaseEquipment.Equipment.GetStatus | base_equipment.py:252-267 | the status dictionary has exactly its seven keys; `data_points` is the log length, `measuring` the active flag, `connected` the transport's answer, and name, status, I/O type and last error their fields' texts |
| BaseEquipment.Equipment.GetLastError | base_equipment.py:269-276 | answers the last error, `None` when there is none |
| BaseEquipment.Equipment.ClearError | base_equipment.py:278-281 | the last error becomes `None` |
| BaseEquipment.Equipment.AddMeasurement | base_equipment.py:283-299 | exactly one record is appended at the end of the log, built from the given value, units, metadata and timestamp |
| BaseEquipment.Equipment.SetStatus | base_equipment.py:301-311 | the status is always set; the last error changes only when a non-empty message is given |
| BaseEquipment.Equipment.UpdateDefaultConfig | ethernet_io/agilent_dmm_equipment.py:56-64 | `dict.update` on the defaults: every given key takes its given value and the other defaults are kept |
| BaseEquipment.MergeAgain | ethernet_io/agilent_dmm_equipment.py:56-65 | merging the updated defaults into a configuration that already holds the base defaults gives the updated defaults, so the subclass constructors' second `config.update` leaves no stale base value |
| EquipmentFactory.AvailableTypes | equipment_controller.py:29-39 | the registry has four distinct type names (see also lines 95-98) |
| EquipmentFactory.UnknownTypeRaises | equipment_controller.py:53-54 | `create_equipment` raises `ValueError` exactly for a name outside the registry |
| EquipmentFactory.RegistryMatchesBuilds | equipment_controller.py:56-84 | every registered name builds the instrument class it is registered with |
| EquipmentFactory.MissingRequiredKeyGivesNone | equipment_controller.py:58-91 | without `visa_address` (meter, supply) or `com_port` (relay) the factory returns `None` instead of an instance |
| EquipmentFactory.OptionalKeysDefault | equipment_controller.py:60-84 | absent optional keys take their defaults: model `e3640a`, baud rate 9600, camera index 0 and each class's default name |
| EquipmentFactory.CameraBuiltIffSdk | usb_io/camera_equipment.py:16-41 | the camera needs no key; it is built exactly when PySpin imports, and otherwise the constructor raises and the factory returns `None` |
| EquipmentFactory.OthersIgnoreSdk | equipment_controller.py:58-79 | the meter, the supply and the relay board are built the same way whether or not PySpin is available |
| PowerSupply.ModelInfoFor | ethernet_io/agilent_power_supply_equipment.py:25-67 | a model outside the table falls back to the e3640a definition; every definition has one or two channels |
| PowerSupply.Lower | ethernet_io/agilent_power_supply_equipment.py:66 | lower-casing keeps the length of the model name |
| PowerSupply.SupplyDefaultsShape | ethernet_io/agilent_power_supply_equipment.py:70-80 | the supply adds exactly its nine keys; output starts disabled; on a single-channel model the three channel-2 entries are `None`, on a two-channel model 0.0 V, 0.1 A and `P8V` |
| PowerSupply.CheckSetting | ethernet_io/agilent_power_supply_equipment.py:283-324 | the channel check fails exactly for a channel outside 1..num_channels; a missing range key, a range outside the model and a value over the ceiling each give their own refusal; a setting is accepted only when the instrument call returned |
| PowerSupply.OverCeilingRefused | ethernet_io/agilent_power_supply_equipment.py:289-320 | a value above the selected range's `max_volts` (or `max_amps`) is refused, for every channel and transport, with that ceiling and that range's name |
| PowerSupply.OverCeilingMessage | ethernet_io/agilent_power_supply_equipment.py:288-291 | 9 V on the `P8V` range of an e3640a is refused with the text "Voltage 9.0V exceeds maximum 8V for range P8V" |
| PowerSupply.MissingRangeKeyMessage | ethernet_io/agilent_power_supply_equipment.py:316-317 | a missing `range_channel_1` key is refused with the `KeyError` text `'range_channel_1'` |
| PowerSupply.Supply.constructor | ethernet_io/agilent_power_supply_equipment.py:49-84 | the model name is lower-cased and looked up, the channel count taken from its definition, the defaults are the base defaults with the supply's merged over them, the configuration equals them, and there is no session |
| PowerSupply.Supply.SetChannelValue | ethernet_io/agilent_power_supply_equipment.py:271-329 | not connected: false and nothing changes; otherwise only an accepted setting changes the configuration, and then only that channel's key; a refused one records the setter's prefix followed by the text of the exception the failed check raises; the instrument is reached only after the channel, range and ceiling checks pass |
| PowerSupply.Supply.SetVoltage | ethernet_io/agilent_power_supply_equipment.py:271-298 | true exactly when connected and accepted; only `voltage_channel_<n>` changes; a refusal records "Set voltage failed: " followed by the text of the exception the failed check raises, and the error stays as it was when disconnected or accepted; the setting is sent exactly when connected and accepted or when the instrument write itself raised, so a value over the ceiling never reaches the instrument |
| PowerSupply.Supply.SetCurrentLimit | ethernet_io/agilent_power_supply_equipment.py:300-329 | as `SetVoltage`, for `current_limit_channel_<n>`, the range's `max_amps` and the prefix "Set current limit failed: " |
| PowerSupply.Supply.EnableOutput | ethernet_io/agilent_power_supply_equipment.py:331-342 | true exactly when connected and the instrument call returned; then only `output_enabled` changes; a raised call sets "Output control failed: ..." |
| PowerSupply.Supply.EmergencyStop | ethernet_io/agilent_power_supply_equipment.py:375-383 | with a session and a returned call `output_enabled` becomes false; without a session nothing changes and the answer is true |
| PowerSupply.Supply.GetOutputStatus | ethernet_io/agilent_power_supply_equipment.py:344-373 | the result is the status dictionary of the configuration; connected, a missing key gives `{}` and records "Get status failed: " followed by the first missing key, quoted |
| PowerSupply.FirstMissing | ethernet_io/agilent_power_supply_equipment.py:349-367 | the key reported is one the status reads and the configuration lacks; none is reported only when every key it reads is present |
| PowerSupply.StatusEmptyIffKeyMissing | ethernet_io/agilent_power_supply_equipment.py:349-373 | connected, the status is `{}` exactly when one of the keys it reads is missing |
| PowerSupply.ChannelTwoIffTwoChannels | ethernet_io/agilent_power_supply_equipment.py:362-367 | a connected supply reports `channel_2` exactly when it has more than one channel |
| PowerSupply.DisconnectedStatusEmpty | ethernet_io/agilent_power_supply_equipment.py:346-347 | not connected, the status is `{}` |
| PowerSupply.SingleChannelDefaults | ethernet_io/agilent_power_supply_equipment.py:67-77 | a model has one channel exactly when its `voltage_channel_2` default is `None` |
| PowerSupply.UnknownModelFallsBack | ethernet_io/agilent_power_supply_equipment.py:26-67 | an unknown model gets one channel, 8 V / 3 A on `P8V` and 20 V / 1.5 A on `P20V` |
| KtaRelay.RelayDefaultsKeys | serial_port/kta_relay_equipment.py:52-57 | the relay board adds exactly `num_relays`, `relay_states`, `voltage_monitoring` and `auto_response` |
| KtaRelay.DefaultLabels | serial_port/kta_relay_equipment.py:61 | eight labels, `Relay_1` to `Relay_8` |
| KtaRelay.OutOfRangeRelayRefused | serial_port/kta_relay_equipment.py:304-321 | a relay number below 1, or one above a `num_relays` that compares, gives false and "Invalid relay number", writes nothing after the probe and leaves the configuration unchanged |
| KtaRelay.LowRelayRefusedFirst | serial_port/kta_relay_equipment.py:304-305 | a relay number below 1 is refused by both the setter and the query before `num_relays` is read, whatever the configuration holds |
| KtaRelay.AboveCount | serial_port/kta_relay_equipment.py:304 | an integer, boolean or float `num_relays` compares by value; a missing one raises `KeyError` and any other type raises `TypeError` |
| KtaRelay.FloatCountCompares | serial_port/kta_relay_equipment.py:304 | a `num_relays` of 8.0 accepts relay 8 and refuses relay 9, and a list of eight labels matches it |
| KtaRelay.StoredOnlyOnOk | serial_port/kta_relay_equipment.py:310-317 | the configuration changes only on success and success needs an answer containing "OK"; when `relay_states` is a list, only that relay's slot changes, to the requested state |
| KtaRelay.CommandWritten | serial_port/kta_relay_equipment.py:262-310 | a relay number from 1 up to a comparable `num_relays` writes the `getversion` probe, then `setrelaystate <n> connect_normal_open` (on) or `connect_normal_closed` (off), each ended by CR LF |
| KtaRelay.OffIsNotOn | serial_port/kta_relay_equipment.py:26-27 | the OFF answer does not contain the ON text while the ON answer does, so `get_relay_state` tells the two apart (see also lines 344-345) |
| KtaRelay.DefaultsEightOff | serial_port/kta_relay_equipment.py:53-54 | by default `num_relays` is 8 and the eight relay states are all off |
| KtaRelay.Relay.constructor | serial_port/kta_relay_equipment.py:31-61 | the defaults are the base defaults with the relay board's merged over them, the configuration equals them, the labels are the default ones, and no port is open |
| KtaRelay.Relay.SendCommand | serial_port/kta_relay_equipment.py:262-269 | without an open port it raises "Serial port not open" and writes nothing; otherwise it writes the command followed by CR LF |
| KtaRelay.Relay.SetRelayState | serial_port/kta_relay_equipment.py:292-321 | result, new configuration, lines written and recorded error are those of one `set_relay_state` step on the old configuration: relay numbers below 1 refused first, then the count compared, then the command sent and the state stored on an "OK" answer |
| KtaRelay.Relay.GetRelayState | serial_port/kta_relay_equipment.py:323-351 | the result is `None` on any failure, relay numbers below 1 refused before the count is read, and otherwise whether the answer contains the ON text; the configuration is untouched |
| KtaRelay.Relay.QueryRelays | serial_port/kta_relay_equipment.py:356-358 | after the loop over relays 1..k the states, the frames written and the error left are those the per-relay queries give in order |
| KtaRelay.Relay.QueryNext | serial_port/kta_relay_equipment.py:357-358 | one turn of that loop extends the states, frames and error from relay i to relay i + 1 |
| KtaRelay.Relay.GetAllRelayStates | serial_port/kta_relay_equipment.py:353-359 | one state per relay, in order, the query of relay j+1 read as off when it failed; the frames written are those of the queries in order, and the error left is the last one a query recorded; a non-integer `num_relays` raises (`None`) and writes nothing |
| KtaRelay.QueriedStatesAt | serial_port/kta_relay_equipment.py:356-358 | the j-th state collected is the answer of relay j+1's query, read as off unless it answered on |
| KtaRelay.Relay.SetRelayLabels | serial_port/kta_relay_equipment.py:399-402 | the labels are replaced only by a list whose length equals `num_relays`; a missing count raises `KeyError` and changes nothing |
| KtaRelay.Relay.GetRelayLabels | serial_port/kta_relay_equipment.py:404-406 | returns the labels (a value, so a copy) |
| AgilentDmm.UnitsCoverFunctions | ethernet_io/agilent_dmm_equipment.py:25-38 | a name has a unit exactly when it is one of the twelve measurement functions; any other name gives `''` (see also lines 261-277) |
| AgilentDmm.DmmDefaultsKeys | ethernet_io/agilent_dmm_equipment.py:57-65 | the meter adds exactly its seven keys to the base defaults |
| AgilentDmm.UnknownFunctionKeepsCurrent | ethernet_io/agilent_dmm_equipment.py:131-134 | a `measurement_function` outside the map leaves the current function as it was and selects no function on the meter |
| AgilentDmm.KnownFunctionSelected | ethernet_io/agilent_dmm_equipment.py:131-134 | with a connected meter that accepts the function call, a known name is selected first and becomes the current function, whatever the range call does |
| AgilentDmm.RangePushedOnlyWhenManual | ethernet_io/agilent_dmm_equipment.py:129-141 | a range call reaches the meter exactly when connected, the keys are present, the function name can be looked up, `auto_range` is false, the function call (if any) returned and the current function is a voltage or current one |
| AgilentDmm.RangeRaisesAfterSwitch | ethernet_io/agilent_dmm_equipment.py:131-149 | when the function call returns and the range call raises, the new function stays current, both calls were made and "Configuration failed: " with the message is recorded |
| AgilentDmm.UnhashableFunctionRaises | ethernet_io/agilent_dmm_equipment.py:131-149 | a list as `measurement_function` raises `unhashable type: 'list'` before any meter call and keeps the current function |
| AgilentDmm.HelperFunction | ethernet_io/agilent_dmm_equipment.py:280-308 | each `measure_*` helper names a known measurement function |
| AgilentDmm.Dmm.constructor | ethernet_io/agilent_dmm_equipment.py:40-69 | the defaults are the base defaults with the meter's merged over them, the configuration equals them, and the current function is `voltage_dc` with no calls made |
| AgilentDmm.Dmm.ApplyConfig | ethernet_io/agilent_dmm_equipment.py:120-149 | the flag, the current function, the calls made and the recorded error are those of `apply_config` on the stored configuration, with separate outcomes for the function call and the range call |
| AgilentDmm.Dmm.GetMeasurementUnits | ethernet_io/agilent_dmm_equipment.py:261-277 | the unit of the current function |
| AgilentDmm.Dmm.SetRangeTo | ethernet_io/agilent_dmm_equipment.py:310-314 | `range` is stored and `auto_range` set false, then the configuration is applied: the function, the meter calls and the error recorded are those of `apply_config` on the new configuration |
| AgilentDmm.Dmm.SetAutoRange | ethernet_io/agilent_dmm_equipment.py:316-319 | `auto_range` is stored, then the configuration is applied: the function, the meter calls and the error recorded are those of `apply_config` on the new configuration |
| AgilentDmm.Dmm.SelectHelper | ethernet_io/agilent_dmm_equipment.py:280-308 | the helper sets `measurement_function` to its own key, which the configuration then selects, before measuring |
| AgilentDmm.SetRangeReachesMeter | ethernet_io/agilent_dmm_equipment.py:137-141 | after `set_range`, a connected meter with a voltage or current function accepts the configuration and its last call pushes that range (see also lines 310-314) |
| Common.Invert | conoscope/ConoscopeLib/Conoscope/ConoscopeResource.cpp:43-56 | the loop over a map's pairs builds exactly the reverse map in which later pairs overwrite earlier ones |
| Common.InvertedInverts | conoscope/ConoscopeLib/Conoscope/ConoscopeResource.cpp:43-56 | for an injective map the reverse map sends every value back to its own key and holds no other value |
| CameraSettingsList.CameraSettings.constructor | conoscope/ConoscopeTestApp/Tools/toolTypes.cpp:11-14 | a new settings list is empty |
| CameraSettingsList.CameraSettings.Length | conoscope/ConoscopeTestApp/Tools/toolTypes.cpp:69-72 | the count of settings held |
| CameraSettingsList.CameraSettings.Clear | conoscope/ConoscopeTestApp/Tools/toolTypes.cpp:30-33 | the list becomes empty and its length 0 |
| CameraSettingsList.CameraSettings.Append | conoscope/ConoscopeTestApp/Tools/toolTypes.cpp:35-38 | the item is added last and the length grows by one |
| CameraSettingsList.CameraSettings.Get | conoscope/ConoscopeTestApp/Tools/toolTypes.cpp:59-67 | an index inside the list gives that item; past the end gives nothing; both directions |
| CameraSettingsList.CameraSettings.GetValue | conoscope/ConoscopeTestApp/Tools/toolTypes.cpp:40-57 | the value of the FIRST item carrying the name; -1.0 when no item carries it, and also when that first item stores -1.0 |
| CameraSettingsList.CameraSettings.Copy | conoscope/ConoscopeTestApp/Tools/toolTypes.cpp:16-28 | the list becomes the other list's items, in order; copying onto itself keeps it |
| DemoFrameBuffer.ToInt16 | conoscope/ConoscopeDemo/Stream/FrameBuffer.cpp:33 | storing an int white level into an int16_t keeps it modulo 2^16 and unchanged when it fits |
| DemoFrameBuffer.ToUint16 | conoscope/ConoscopeDemo/Stream/FrameBuffer.cpp:37 | the memcpy into uint16_t gives the same bits read unsigned; a non-negative pixel keeps its value |
| DemoFrameBuffer.Clamped | conoscope/ConoscopeDemo/Stream/FrameBuffer.cpp:27-34 | a clamped pixel lies in [0, white level]; a pixel already inside is kept; any change is a negative set to 0 or an excess set to the white level |
| DemoFrameBuffer.ClampedIdempotent | conoscope/ConoscopeDemo/Stream/FrameBuffer.cpp:27-34 | clamping a clamped pixel changes nothing |
| DemoFrameBuffer.CopyWithinWhiteLevel | conoscope/ConoscopeDemo/Stream/FrameBuffer.cpp:27-37 | the unsigned copy of a clamped pixel lies in [0, white level] and equals a pixel that was already inside |
| DemoFrameBuffer.FrameBuffer.constructor | conoscope/ConoscopeDemo/Stream/FrameBuffer.cpp:3-6 | a new slot is free |
| DemoFrameBuffer.FrameBuffer.Fill | conoscope/ConoscopeDemo/Stream/FrameBuffer.cpp:12-41 | a busy slot leaves state, data and frame alone; a free slot clamps the caller's frame in place, stores its unsigned copy and becomes ready to display |
| DemoFrameBuffer.FrameBuffer.Release | conoscope/ConoscopeDemo/Stream/FrameBuffer.cpp:43-46 | the slot is free again and its data is kept |
| DemoFrameBuffer.FilledDataWithinWhiteLevel | conoscope/ConoscopeDemo/Stream/FrameBuffer.cpp:23-37 | after filling a free slot every stored pixel lies in [0, white level] |
| LogMasks.MaskName | conoscope/ConoscopeDemo/AppController/appConfigTypes.cpp:5-47 | a mask reads as "" exactly when it has no name in the map |
| LogMasks.MaskOfName | conoscope/ConoscopeDemo/AppController/appConfigTypes.cpp:10-13 | a name found in the reverse map gives a named mask whose name is that name |
| LogMasks.NameRoundTrip | conoscope/ConoscopeDemo/AppController/appConfigTypes.cpp:5-13 | the name map and the reverse map are inverse on the named masks; "any" and "error" find nothing |
| LogMasks.Decoded | conoscope/ConoscopeDemo/AppController/appConfigTypes.cpp:29-38 | the masks read from JSON are all named and no more than the items |
| LogMasks.Encoded | conoscope/ConoscopeDemo/AppController/appConfigTypes.cpp:45-49 | one text item per mask holding that mask's name, same order |
| LogMasks.DecodeEncode | conoscope/ConoscopeDemo/AppController/appConfigTypes.cpp:25-52 | writing masks and reading them back gives the named masks in order |
| LogMasks.NamedMasksRoundTrip | conoscope/ConoscopeDemo/AppController/appConfigTypes.cpp:25-52 | a list of named masks survives writing and reading back unchanged |
| LogMasks.UnknownSkipped | conoscope/ConoscopeDemo/AppController/appConfigTypes.cpp:33-37 | an item without a known name adds no mask |
| LogMasks.LogMask.constructor | conoscope/ConoscopeDemo/AppController/appConfigTypes.cpp:15-18 | a new mask list is empty |
| LogMasks.LogMask.FromList | conoscope/ConoscopeDemo/AppController/appConfigTypes.cpp:20-23 | the list given is kept |
| LogMasks.LogMask.FromJson | conoscope/ConoscopeDemo/AppController/appConfigTypes.cpp:25-39 | the loop keeps exactly the items with a known name, in order |
| LogMasks.LogMask.GetJson | conoscope/ConoscopeDemo/AppController/appConfigTypes.cpp:41-52 | the loop writes one name per mask, in order |
| LogMasks.LogMask.IsPresent | conoscope/ConoscopeDemo/AppController/appConfigTypes.cpp:54-64 | present exactly when the mask is "any", "error" or listed |
| ToolString.FixedLength | conoscope/ConoscopeLib/Tools/toolString.cpp:15-23 | the result has exactly the length asked for (none when negative): the input's characters, then spaces |
| ToolString.FormatText | conoscope/ConoscopeLib/Tools/toolString.cpp:3-13 | a row is 30 columns holding the header and then spaces, followed by ": " and the input unchanged |
| ToolString.FormatTextHeader | conoscope/ConoscopeLib/Tools/toolString.cpp:3-13 | a header that fits starts the row padded with spaces; a longer one is cut to its first 30 characters |
| ToolString.FixedLengthExact | conoscope/ConoscopeLib/Tools/toolString.cpp:15-23 | a text of exactly that length is returned unchanged |
| ToolString.FixedLengthIdempotent | conoscope/ConoscopeLib/Tools/toolString.cpp:15-23 | fitting twice to one length is fitting once |
| ToolString.FixedLengthPrefix | conoscope/ConoscopeLib/Tools/toolString.cpp:15-23 | a longer input is cut to its prefix; a shorter one is kept whole and padded with spaces |
| EldViewer.Half | conoscope/ConoscopeTestApp/Stream/qEldViewer.cpp:378-382 | the subsampled size is half the dimension, rounded up |
| EldViewer.BlockMeanRange | conoscope/ConoscopeTestApp/Stream/qEldViewer.cpp:397-465 | the mean of a block of 16-bit pixels is a 16-bit pixel |
| EldViewer.EdgeOfHalf | conoscope/ConoscopeTestApp/Stream/qEldViewer.cpp:397-465 | only the last output column (row) lacks a right (lower) neighbour pixel, and exactly when the width (height) is odd |
| EldViewer.ImageAt | conoscope/ConoscopeTestApp/Stream/qEldViewer.cpp:378-473 | output pixel (c, r) sits at index r * Half(width) + c and holds its block's mean |
| EldViewer.SubSampledPixel | conoscope/ConoscopeTestApp/Stream/qEldViewer.cpp:397-465 | each branch (2x2 block, vertical pair on the odd last column, horizontal pair on the odd last row, single corner pixel) gives the block mean |
| EldViewer.ImagePixels16 | conoscope/ConoscopeTestApp/Stream/qEldViewer.cpp:378-473 | a subsampled 16-bit image is again a 16-bit image |
| EldViewer.SubSample | conoscope/ConoscopeTestApp/Stream/qEldViewer.cpp:378-473 | the nested loops build exactly the subsampled image, row after row |
| EldViewer.GreyByte | conoscope/ConoscopeTestApp/Stream/qEldViewer.cpp:145 | the grey level is a byte, the pixel's top 8 of 12 bits |
| EldViewer.GreyBitmapAt | conoscope/ConoscopeTestApp/Stream/qEldViewer.cpp:128-151 | bitmap bytes 4i, 4i+1, 4i+2 are pixel i's grey byte and byte 4i+3 is 0 |
| EldViewer.MinFrom | conoscope/ConoscopeTestApp/Stream/qEldViewer.cpp:175-194 | the darkest pixel, never above the start value 4096, at most every pixel and either 4096 or a pixel |
| EldViewer.MaxFrom | conoscope/ConoscopeTestApp/Stream/qEldViewer.cpp:175-194 | the brightest pixel, never below the start value 0, at least every pixel and either 0 or a pixel |
| EldViewer.QRgba | conoscope/ConoscopeTestApp/Stream/qEldViewer.cpp:197-214 | every channel keeps its low 8 bits; in-range channels are kept as they are |
| EldViewer.RainBow | conoscope/ConoscopeTestApp/Stream/qEldViewer.cpp:197-214 | every colour has one channel at 255 and one at 0; levels from 1023 on are pure red |
| EldViewer.RainBowContinuous | conoscope/ConoscopeTestApp/Stream/qEldViewer.cpp:197-214 | neighbouring levels below 1023 differ by at most one in every channel |
| EldViewer.PaletteOverrunAsWritten | conoscope/ConoscopeTestApp/Stream/qEldViewer.cpp:223-234 | the loops write entry max, which lies past the end of a palette sized as written |
| EldViewer.PaletteLength | conoscope/ConoscopeTestApp/Stream/qEldViewer.cpp:216-236 | every entry the loops write lies inside the palette, which holds max + 1 entries |
| EldViewer.Viewer.constructor | conoscope/ConoscopeTestApp/Stream/qEldViewer.cpp:3-39 | a new viewer holds no subsampled data, no bitmap and no palette |
| EldViewer.Viewer.DataSubSampling | conoscope/ConoscopeTestApp/Stream/qEldViewer.cpp:366-473 | the stored sizes are the halved dimensions and the stored and returned data is the subsampled image, a 16-bit image |
| EldViewer.Viewer.CreateGreyBitmap | conoscope/ConoscopeTestApp/Stream/qEldViewer.cpp:128-151 | a non-empty buffer becomes its grey RGBX bitmap, pixel by pixel; an empty one leaves the bitmap |
| EldViewer.Viewer.CalculateDisplayMinMax | conoscope/ConoscopeTestApp/Stream/qEldViewer.cpp:175-194 | the displayed minimum and maximum become the darkest and brightest pixels |
| EldViewer.Viewer.CreateCurrentPalette | conoscope/ConoscopeTestApp/Stream/qEldViewer.cpp:216-236 | with the palette sized to every entry its loops write: entries below the darkest pixel get the first rainbow colour, the others the colour of level `(i - min) * 1024 / (max - min)` (the parameter `flatLevel` when min equals max), and every pixel indexes inside the palette |
| EldViewer.LevelSpansRainbow | conoscope/ConoscopeTestApp/Stream/qEldViewer.cpp:225-234 | the palette levels run from 0 at the darkest pixel to 1024 at the brightest and never go down |
| AppWorker.FinalState | conoscope/ConoscopeLib/ConoscopeApp/ConoscopeAppWorker.cpp:362-379 | a cancel wins; otherwise the sequence is done exactly when no step failed, and in error exactly when one did |
| AppWorker.StepsRun | conoscope/ConoscopeLib/ConoscopeApp/ConoscopeAppWorker.cpp:319-333 | a sequence runs steps while they succeed and no cancel is seen, stopping at the end, at the cancel or right after a failed step |
| AppWorker.StepsRunStops | conoscope/ConoscopeLib/ConoscopeApp/ConoscopeAppWorker.cpp:319-333 | no capture follows a failed step or the cancel, a run ends early only for a reason, and one without failure or cancel runs every filter |
| AppWorker.CropIndexInside | conoscope/ConoscopeLib/ConoscopeApp/ConoscopeAppWorker.cpp:454-503 | a crop inside the captured ROI reads only inside the captured image |
| AppWorker.CroppedAt | conoscope/ConoscopeLib/ConoscopeApp/ConoscopeAppWorker.cpp:494-503 | destination pixel line * width + column comes from source (oy + line) * srcWidth + ox + column |
| AppWorker.CropToSameRoi | conoscope/ConoscopeLib/ConoscopeApp/ConoscopeAppWorker.cpp:494-503 | cropping to the captured ROI itself gives the capture back |
| AppWorker.CropBuffer | conoscope/ConoscopeLib/ConoscopeApp/ConoscopeAppWorker.cpp:494-503 | the nested copy loops build exactly the cropped image |
| AppWorker.StagingCopyAsWritten | conoscope/ConoscopeLib/ConoscopeApp/ConoscopeAppWorker.cpp:471-481 | the staging buffer has room for the crop while the copy writes the whole capture |
| AppWorker.StagingCopyOverrunsAsWritten | conoscope/ConoscopeLib/ConoscopeApp/ConoscopeAppWorker.cpp:471-481 | cropping a 100 x 100 capture to 10 x 10 copies 10000 pixels into room for 100 |
| AppWorker.RunSteps | conoscope/ConoscopeLib/ConoscopeApp/ConoscopeAppWorker.cpp:319-333 | the loop captures exactly the filters StepsRun counts, in order, and returns the last step's error, its filter and whether the cancel was seen |
| AppWorker.Worker.constructor | conoscope/ConoscopeLib/ConoscopeApp/ConoscopeAppWorker.cpp:45-56 | no steps, no sequence or measure started, no filter and no cancel request |
| AppWorker.Worker.CaptureSequenceCancel | conoscope/ConoscopeLib/ConoscopeApp/ConoscopeAppWorker.cpp:62-81 | the cancel flag is set; the error is "invalid state" exactly when no sequence runs |
| AppWorker.Worker.MeasureAECancel | conoscope/ConoscopeLib/ConoscopeApp/ConoscopeAppWorker.cpp:83-98 | the cancel flag is set; the error is "invalid state" exactly when no measure runs |
| AppWorker.Worker.CaptureSequence | conoscope/ConoscopeLib/ConoscopeApp/ConoscopeAppWorker.cpp:205-387 | the filters are captured in order while captures succeed and no cancel is seen; the final state follows the cancel and the last error; the step counter and filter are the last step's, and unchanged when no step ran; the buffers stay |
| AppWorker.Worker.CaptureSequenceEmulate | conoscope/ConoscopeLib/ConoscopeApp/ConoscopeAppWorker.cpp:389-554 | the ROI flags are cleared; with every read good the result is ok exactly when the ROI lies inside the capture, and then every filter's buffer is its cropped capture, while a ROI that does not fit leaves the captures as read; a reversed ROI (right before left or bottom above top) that passes the inside test is reported as `reversed`, leaves the buffers unchanged and still answers ok, as the source's test lets it through; the cancel flag, step counter and filter follow the steps run; the final state follows the cancel and the error |
| AppWorker.Worker.StoreCaptured | conoscope/ConoscopeLib/ConoscopeApp/ConoscopeAppWorker.cpp:446-510 | the result is ok exactly when the ROI passes the inside test, otherwise "invalid parameter"; `reversed` holds exactly when it passes with right before left or bottom above top; an accepted ROI stores every filter's crop, a reversed one keeps the buffers, and a refused one stores the captures uncropped |
| AppWorker.ReversedRoiPassesAsWritten | conoscope/ConoscopeLib/ConoscopeApp/ConoscopeAppWorker.cpp:454-462 | as written, the ROI with left 20 and right 10 inside a 0..100 capture passes the inside test, and the crop width it gives is -10, so the staging size is negative |
| AppWorker.AcceptedRoiFits | conoscope/ConoscopeLib/ConoscopeApp/ConoscopeAppWorker.cpp:454-466 | the corrected acceptance: a ROI inside the capture and in order has a crop width and height between 0 and the capture's, and a pixel count between 0 and the capture's |
| AppWorker.CropAllSpec | conoscope/ConoscopeLib/ConoscopeApp/ConoscopeAppWorker.cpp:462-506 | for an accepted ROI, each of the sequence's filters gets one buffer holding width x height pixels of the requested ROI |
| AppWorker.CropAll | conoscope/ConoscopeLib/ConoscopeApp/ConoscopeAppWorker.cpp:462-506 | for an accepted ROI, the loop over the filters crops every capture to the ROI |
| AppWorker.EmulatedOutcome | conoscope/ConoscopeLib/ConoscopeApp/ConoscopeAppWorker.cpp:422-443 | a filter's read succeeds exactly when its file exists and its conversion succeeded; anything else fails |
| DemoCamera.RegisterAsWritten | conoscope/ConoscopeDemo/Camera/camera.cpp:36-59 | the camera serial is always stored; as written, registration succeeds exactly when the board serial splits into two parts, and then vendor + "_" + board is the serial |
| DemoCamera.PlainSerialRefusedAsWritten | conoscope/ConoscopeDemo/Camera/camera.cpp:40-56 | a board serial without '_' is one part, so it is refused; no string splits into zero parts |
| DemoCamera.Registered | conoscope/ConoscopeDemo/Camera/camera.cpp:36-59 | the camera serial is always stored; a serial without '_' is kept whole, one with a single '_' is split at it, one with more is refused with "invalid parameter" and the record kept |
| DemoCamera.RegisterAgreesWithAsWritten | conoscope/ConoscopeDemo/Camera/camera.cpp:36-59 | the corrected registration agrees with the as-written one on every serial holding a '_' |
| DemoCamera.ColdReading | conoscope/ConoscopeDemo/Camera/camera.cpp:351-359 | the dummy reading equals the target exactly at step 0 and lies below it on a positive step |
| DemoCamera.NextStep | conoscope/ConoscopeDemo/Camera/camera.cpp:351-359 | the step counts down by one per reading until the target is reached, then stays at 0 |
| DemoCamera.ReadingsSettle | conoscope/ConoscopeDemo/Camera/camera.cpp:345-366 | from step n, n readings reach the target and stay on it |
| DemoCamera.ReadingsRise | conoscope/ConoscopeDemo/Camera/camera.cpp:351-359 | while below the target each reading is closer to it than the one before |
| DemoCamera.Camera.constructor | conoscope/ConoscopeDemo/Camera/camera.cpp:3-6 | the model is unknown; the other fields start as given |
| DemoCamera.Camera.Register | conoscope/ConoscopeDemo/Camera/camera.cpp:36-59 | the record and the error are those of the registration as written: the camera serial stored, a board serial with exactly one '_' accepted, any other refused; nothing else changes |
| DemoCamera.Camera.ConfigureConnection | conoscope/ConoscopeDemo/Camera/camera.cpp:61-71 | the address, port and configuration are stored and the answer is ok |
| DemoCamera.Camera.GetInfo | conoscope/ConoscopeDemo/Camera/camera.cpp:73-81 | the registered identity is returned with ok |
| DemoCamera.Camera.GetFloatValue | conoscope/ConoscopeDemo/Camera/camera.cpp:322-332 | "PIDTarget" reads the sensor target; any other feature reads 0 |
| DemoCamera.Camera.SetFloatValue | conoscope/ConoscopeDemo/Camera/camera.cpp:334-343 | a new "PIDTarget" restarts the dummy reading ten steps away; any other feature changes nothing |
| DemoCamera.Camera.GetHw | conoscope/ConoscopeDemo/Camera/camera.cpp:345-366 | the cold temperature is the current dummy reading and moves one step towards the target; the CMOS temperature is the target; anything else reads 0 |
| DemoCamera.Camera.GetSerialNumber | conoscope/ConoscopeDemo/Camera/camera.cpp:88-92 | not implemented |
| DemoCamera.Camera.GetSettings | conoscope/ConoscopeDemo/Camera/camera.cpp:94-97 | not implemented |
| DemoCamera.Camera.ErrorRecovery | conoscope/ConoscopeDemo/Camera/camera.cpp:172-175 | not implemented |
| ConoscopeAppSm.ChangeState | conoscope/ConoscopeLib/ConoscopeApp/ConoscopeApp.cpp:135-316 | the state left is recorded as the previous state before the target is entered; the worker is asked for a capture sequence exactly when the target is CmdCapturingSequence and for an auto-exposure measure exactly when it is CmdMeasuringAE, and never asked to cancel |
| ConoscopeAppSm.ResetStatus | conoscope/ConoscopeLib/ConoscopeApp/ConoscopeApp.cpp:286-296 | entering the capture-sequence or measure-AE state resets that job's shared status to NotStarted before the request is sent; any other entry leaves it as it was |
| ConoscopeAppSm.AcceptedJobStartsNotStarted | conoscope/ConoscopeLib/ConoscopeApp/ConoscopeApp.cpp:286-296 | an accepted capture-sequence or measure-AE command enters its processing state, sends that job's request and so resets that job's status to NotStarted, whatever status the last run left |
| ConoscopeAppSm.UnhandledRefused | conoscope/ConoscopeLib/ConoscopeApp/ConoscopeApp.cpp:323-504 | an event the current state does not handle is refused with "invalid state" and changes neither state nor worker |
| ConoscopeAppSm.InvalidStateIffUnhandled | conoscope/ConoscopeLib/ConoscopeApp/ConoscopeApp.cpp:323-504 | when no command itself answers "invalid state", that answer means exactly that the event is not handled in the current state |
| ConoscopeAppSm.MeasureOnlyWhenReady | conoscope/ConoscopeLib/ConoscopeApp/ConoscopeApp.cpp:382-451 | a measure is accepted exactly from Ready and CaptureDone |
| ConoscopeAppSm.ExportRawOnlyAfterCapture | conoscope/ConoscopeLib/ConoscopeApp/ConoscopeApp.cpp:417-451 | a raw export is accepted exactly from CaptureDone |
| ConoscopeAppSm.ErrorAcceptsCloseAndReset | conoscope/ConoscopeLib/ConoscopeApp/ConoscopeApp.cpp:464-474 | the Error state accepts exactly Close and Reset |
| ConoscopeAppSm.OpenOutcome | conoscope/ConoscopeLib/ConoscopeApp/ConoscopeApp.cpp:160-172 | after Open the machine is Opened on success and in Error otherwise, with Idle recorded as previous and the command's error returned (see also lines 333-341) |
| ConoscopeAppSm.MeasureOutcome | conoscope/ConoscopeLib/ConoscopeApp/ConoscopeApp.cpp:186-206 | after a measure the machine is in CaptureDone on success, back in Ready on "invalid configuration", in Error otherwise |
| ConoscopeAppSm.ExportProcessedBackToCaptureDone | conoscope/ConoscopeLib/ConoscopeApp/ConoscopeApp.cpp:220-233 | an accepted processed export always comes back to CaptureDone, whatever the export returns |
| ConoscopeAppSm.CfgFileReturnsToStart | conoscope/ConoscopeLib/ConoscopeApp/ConoscopeApp.cpp:260-285 | a successful configuration-file read or write returns to the state it started from |
| ConoscopeAppSm.StepSettles | conoscope/ConoscopeLib/ConoscopeApp/ConoscopeApp.cpp:135-504 | from a settled state no event leaves the machine inside a synchronous processing state |
| ConoscopeAppSm.ChangeStateSettles | conoscope/ConoscopeLib/ConoscopeApp/ConoscopeApp.cpp:135-316 | entering any target from a settled state ends in a settled state |
| ConoscopeAppSm.ClampAeInside | conoscope/ConoscopeLib/ConoscopeApp/ConoscopeApp.cpp:1067-1095 | with bounds more than 200 µs apart the clamped exposure lies strictly inside them, and an exposure already inside is kept |
| ConoscopeAppSm.ClampDoesNotReachWorker | conoscope/ConoscopeLib/ConoscopeApp/ConoscopeApp.cpp:1082-1095 | as written, an exposure above the maximum reaches the worker unclamped |
| ConoscopeAppSm.WorkerExposureInside | conoscope/ConoscopeLib/ConoscopeApp/ConoscopeApp.cpp:1082-1095 | with the clamp applied before the copy, the worker always gets an exposure strictly inside the bounds |
| ConoscopeAppSm.App.constructor | conoscope/ConoscopeLib/ConoscopeApp/ConoscopeApp.cpp:15-54 | the machine starts Undefined, without an external core loop, worker calls or notifications, and with both job statuses NotStarted |
| ConoscopeAppSm.App.Start | conoscope/ConoscopeLib/ConoscopeApp/ConoscopeApp.cpp:506-514 | starting the thread from Undefined enters Idle; otherwise nothing changes (see also lines 151-154) |
| ConoscopeAppSm.App.SetExternalCoreLoop | conoscope/ConoscopeLib/ConoscopeApp/ConoscopeApp.h:88-91 | the external core loop flag is set |
| ConoscopeAppSm.App.ProcessStateMachine | conoscope/ConoscopeLib/ConoscopeApp/ConoscopeApp.cpp:323-504 | the new state, previous state, error and worker request are exactly those of one step of the transition function; the capture-sequence and measure-AE statuses are reset as `ResetStatus` says for the worker call the step makes |
| ConoscopeAppSm.App.CmdMeasureCall | conoscope/ConoscopeLib/ConoscopeApp/ConoscopeApp.cpp:647-681 | an exposure below 10 µs or an acquisition count outside 1..30 is refused with "invalid parameter" and touches nothing; valid arguments take one measure step, with the worker call that step makes; neither job status changes |
| ConoscopeAppSm.App.CmdMeasureAECall | conoscope/ConoscopeLib/ConoscopeApp/ConoscopeApp.cpp:1069-1100 | as written, the worker gets the requested exposure unclamped while the caller's configuration is clamped into the bounds, and the machine takes one measure-AE step, with the worker call that step makes, which resets the measure-AE status when it requests the job; the sequence status is unchanged |
| ConoscopeAppSm.App.CmdSetupStatus | conoscope/ConoscopeLib/ConoscopeApp/ConoscopeApp.cpp:622-645 | the process status is read only in Opened, Ready, CaptureDone and the setup, measure and export processing states; elsewhere "invalid state" |
| ConoscopeAppSm.App.CmdExportRawBuffer | conoscope/ConoscopeLib/ConoscopeApp/ConoscopeApp.cpp:696-711 | a raw export into a buffer runs only in CaptureDone; elsewhere "invalid state" |
| ConoscopeAppSm.App.CmdExportProcessedBuffer | conoscope/ConoscopeLib/ConoscopeApp/ConoscopeApp.cpp:726-740 | as written, a processed export into a buffer gives the export's result in CaptureDone and Ok in every other state |
| ConoscopeAppSm.ExportProcessedBufferResult | conoscope/ConoscopeLib/ConoscopeApp/ConoscopeApp.cpp:696-740 | the corrected result: the export's own in CaptureDone, "invalid state" elsewhere |
| ConoscopeAppSm.ExportProcessedBufferOkOutsideCapture | conoscope/ConoscopeLib/ConoscopeApp/ConoscopeApp.cpp:728-737 | as written, a processed export into a buffer requested from Ready answers ok |
| ConoscopeAppSm.App.OnWorkerJobDone | conoscope/ConoscopeLib/ConoscopeApp/ConoscopeApp.cpp:516-556 | the worker's job-done sets the state the job ends in and adds one notification |
| ConoscopeAppSm.App.CmdCaptureSequenceStatus | conoscope/ConoscopeLib/ConoscopeApp/ConoscopeApp.cpp:1027-1065 | without an external core loop a running sequence is reported in progress; otherwise the answer is the stored sequence status, and with an external core loop a Done status moves the machine to Opened |
| ConoscopeAppSm.App.WorkerReport | conoscope/ConoscopeLib/ConoscopeApp/ConoscopeAppWorker.cpp:364-376 | the worker's store sets the status of the job it runs (sequence or measure-AE) and nothing else (see also lines 536-548 and 1257-1272) |
| ConoscopeAppSm.App.CmdMeasureAEStatus | conoscope/ConoscopeLib/ConoscopeApp/ConoscopeApp.cpp:1113-1150 | without an external core loop a running measure is reported in progress; otherwise the answer is the stored measure-AE status, and with an external core loop a Done status moves the machine to CaptureDone |
| ConoscopeSm.ChangeState | conoscope/ConoscopeLib/Conoscope/Conoscope.cpp:164-328 | the state left is recorded as the previous state before the target is entered; the debug-mode setup at its head is `DebugSetupAsWritten` of the parameter `Passed` gives it, recorded by the `Scope` methods |
| ConoscopeSm.UnhandledRefused | conoscope/ConoscopeLib/Conoscope/Conoscope.cpp:335-489 | an event the current state does not handle is refused with "invalid state" and changes nothing |
| ConoscopeSm.StepRests | conoscope/ConoscopeLib/Conoscope/Conoscope.cpp:164-489 | one event from a resting machine leaves it resting: no synchronous command is left half done |
| ConoscopeSm.RunRests | conoscope/ConoscopeLib/Conoscope/Conoscope.cpp:164-489 | any series of events keeps a resting machine resting |
| ConoscopeSm.CfgFileRoundTrip | conoscope/ConoscopeLib/Conoscope/Conoscope.cpp:310-328 | a configuration-file job sent from Opened or Ready is accepted, handed to the worker and returns to the starting state when the worker is done (see also lines 502-519) |
| ConoscopeSm.MeasureOutcome | conoscope/ConoscopeLib/Conoscope/Conoscope.cpp:233-256 | a measure is accepted exactly from Ready and CaptureDone; it ends in CaptureDone exactly on success and back in Ready exactly on a refused parameter or configuration (see also lines 390-444) |
| ConoscopeSm.FailureMeansError | conoscope/ConoscopeLib/Conoscope/Conoscope.cpp:197-232 | a failed open, setup, raw export, close or reset leaves the machine in Error and returns the failure (see also lines 257-269, 284-309) |
| ConoscopeSm.SetupArgs | conoscope/ConoscopeLib/Conoscope/Conoscope.cpp:558-575 | the corrected check: setup is accepted exactly when iris, filter and density indices all lie below their Invalid values; otherwise "invalid parameter" |
| ConoscopeSm.SetupArgsAsWritten | conoscope/ConoscopeLib/Conoscope/Conoscope.cpp:558-575 | as written: setup is accepted exactly when iris and filter lie below their Invalid values and the density index is at most `Nd_Invalid`; otherwise "invalid parameter" |
| ConoscopeSm.NdInvalidAccepted | conoscope/ConoscopeLib/Conoscope/Conoscope.cpp:570 | as written, the density index Nd_Invalid passes the check |
| ConoscopeSm.MeasureArgs | conoscope/ConoscopeLib/Conoscope/Conoscope.cpp:623-635 | a measure is accepted exactly with at least 10 µs and 1 to 30 acquisitions; otherwise "invalid parameter" |
| ConoscopeSm.Scope.constructor | conoscope/ConoscopeLib/Conoscope/Conoscope.cpp:32-38 | a new machine is Undefined with no worker request, no stored setup or measure and no debug setup |
| ConoscopeSm.Scope.Start | conoscope/ConoscopeLib/Conoscope/Conoscope.cpp:96-107 | only an Undefined machine starts its thread, which enters Idle through ChangeState with Undefined recorded as previous; in debug mode that ChangeState dereferences a null setup; any other state changes nothing (see also lines 491-494) |
| ConoscopeSm.Scope.ProcessStateMachine | conoscope/ConoscopeLib/Conoscope/Conoscope.cpp:335-489 | the new state, previous state, error and worker request are exactly those of one step of the transition function; an accepted event in debug mode records what the debug setup did with the parameter the transition passes |
| ConoscopeSm.Scope.OnWorkerJobDone | conoscope/ConoscopeLib/Conoscope/Conoscope.cpp:502-519 | a finished configuration-file job returns to the previous state; in debug mode that ChangeState dereferences a null setup |
| ConoscopeSm.Scope.CmdSetupCall | conoscope/ConoscopeLib/Conoscope/Conoscope.cpp:544-590 | indices the as-written check refuses give "invalid parameter" and touch nothing; any other setup, `Nd_Invalid` included, is stored and takes one setup step, which sends no worker request and, in debug mode, copies the setup |
| ConoscopeSm.Scope.CmdSetupStatus | conoscope/ConoscopeLib/Conoscope/Conoscope.cpp:592-615 | the process status is read only in Opened, Ready, CaptureDone and the setup, measure and export processing states; elsewhere "invalid state" |
| ConoscopeSm.Scope.CmdMeasureCall | conoscope/ConoscopeLib/Conoscope/Conoscope.cpp:617-648 | invalid arguments are refused with "invalid parameter" and touch nothing; valid ones are stored and take one measure step, which sends no worker request and, in debug mode, reads the measure configuration as a setup |
| ConoscopeSm.DebugSetupAsWritten | conoscope/ConoscopeLib/Conoscope/Conoscope.cpp:164-182 | as written, the debug setup dereferences the parameter exactly when there is none, and copies a setup exactly when given one |
| ConoscopeSm.NullSetupDereferencedAsWritten | conoscope/ConoscopeLib/Conoscope/Conoscope.cpp:343-475 | as written, in debug mode every accepted transition other than setup, measure and export-processed from CaptureDone dereferences a null setup |
| ConoscopeSm.DebugExportFromIdleDereferencesNullAsWritten | conoscope/ConoscopeLib/Conoscope/Conoscope.cpp:354-363 | as written, export-processed from Idle exists only in debug mode, and there it dereferences a null setup |
| ConoscopeSm.MeasureReadAsSetupAsWritten | conoscope/ConoscopeLib/Conoscope/Conoscope.cpp:395-398 | as written, a measure accepted in debug mode has its configuration read as a setup |
| ConoscopeSm.DebugSetupOnlyFromSetup | conoscope/ConoscopeLib/Conoscope/Conoscope.cpp:164-182 | corrected: with each entry point passing its own configuration, an accepted transition takes a debug setup exactly when it is a setup, and that setup is the one given |
| ConoscopeSm.DebugSetupAgrees | conoscope/ConoscopeLib/Conoscope/Conoscope.cpp:164-182 | the corrected debug setup takes a setup exactly when the as-written one copies that setup |
| DemoController.Target | conoscope/ConoscopeDemo/AppController/appController.cpp:281-612 | only Idle on ConvertRaw, or ConvertingRaw itself, can lead into ConvertingRaw |
| DemoController.StepAnswer | conoscope/ConoscopeDemo/AppController/appController.cpp:281-612 | an event answers ok exactly when the current state handles it; a refused one answers "invalid state" and changes nothing |
| DemoController.BusyIffEntryAction | conoscope/ConoscopeDemo/AppController/appController.cpp:167-279 | entering a state sends the worker a request or a cancel exactly when the state waits for the worker |
| DemoController.FailureBecomesError | conoscope/ConoscopeDemo/AppController/appController.cpp:626-747 | a failed job becomes the Error event, except a measure refused for its configuration, which is the non-fatal measure error |
| DemoController.ErrorStopsJob | conoscope/ConoscopeDemo/AppController/appController.cpp:281-612 | an error reported while a job runs moves the controller to Error |
| DemoController.ErrorEndsDisplay | conoscope/ConoscopeDemo/AppController/appController.cpp:550-572 | a display that reports an error falls back to MeasureDone |
| DemoController.ErrorRefusedWhenWaiting | conoscope/ConoscopeDemo/AppController/appController.cpp:281-612 | an error reported while nothing runs is refused with "invalid state" |
| DemoController.StepConsistent | conoscope/ConoscopeDemo/AppController/appController.cpp:289-304 | one step keeps the remembered return state of a raw conversion Idle (see also lines 595-600) |
| DemoController.RunConsistent | conoscope/ConoscopeDemo/AppController/appController.cpp:289-304 | any series of events keeps that bookkeeping (see also lines 595-600) |
| DemoController.ConvertRawReturnsToIdle | conoscope/ConoscopeDemo/AppController/appController.cpp:595-600 | a finished raw conversion always lands back in Idle |
| DemoController.Controller.constructor | conoscope/ConoscopeDemo/AppController/appController.cpp:34-38 | a new controller is Undefined and has asked the worker for nothing |
| DemoController.Controller.Start | conoscope/ConoscopeDemo/AppController/appController.cpp:102-113 | only an Undefined controller starts its thread, which enters Idle; any other state is kept (see also lines 616-619) |
| DemoController.Controller.ProcessStateMachine | conoscope/ConoscopeDemo/AppController/appController.cpp:281-612 | the new state, bookkeeping, error and worker action are exactly those of one step of the transition function |
| DemoController.Controller.OnWorkerJobDone | conoscope/ConoscopeDemo/AppController/appController.cpp:626-747 | a finished job that maps to an event takes that step and appends the step's worker action, if any; one that maps to none changes nothing |
| TempMonitor.JobDoneEvent | conoscope/ConoscopeLib/Conoscope/TempMonitoring.cpp:245-265 | a finished regulation reports Done exactly on success, Aborted exactly on an abort, Error otherwise |
| TempMonitor.Reset | conoscope/ConoscopeLib/Conoscope/TempMonitoring.cpp:292-311 | the corrected reset: refused with "invalid state" exactly while a regulation runs, changing nothing; otherwise back to Idle with the status not started, reporting ok |
| TempMonitor.ResetCanReportFailure | conoscope/ConoscopeLib/Conoscope/TempMonitoring.cpp:294-308 | as written, a reset that does take place returns an unset error, which may read as a failure |
| TempMonitor.SetTemperatureAccepted | conoscope/ConoscopeLib/Conoscope/TempMonitoring.cpp:185-233 | a set temperature is accepted exactly when no regulation runs, and then the worker is asked and the status becomes processing |
| TempMonitor.RegulationOutcome | conoscope/ConoscopeLib/Conoscope/TempMonitoring.cpp:141-178 | a running regulation ends Locked in TemperatureSet on success, back in Idle with status Aborted on an abort, in Error otherwise (see also lines 206-231) |
| TempMonitor.StepCoherent | conoscope/ConoscopeLib/Conoscope/TempMonitoring.cpp:141-233 | one event keeps the status following the state |
| TempMonitor.ResetCoherent | conoscope/ConoscopeLib/Conoscope/TempMonitoring.cpp:292-311 | a reset keeps the status following the state |
| TempMonitor.RunCoherent | conoscope/ConoscopeLib/Conoscope/TempMonitoring.cpp:141-311 | from a coherent machine the status follows the state through any series of events and resets |
| TempMonitor.Monitor.constructor | conoscope/ConoscopeLib/Conoscope/TempMonitoring.cpp:20-24 | a new monitor is Undefined, not started and has asked the worker for nothing |
| TempMonitor.Monitor.Start | conoscope/ConoscopeLib/Conoscope/TempMonitoring.cpp:58-72 | only an Undefined monitor starts its thread, which enters Idle; any other state is kept (see also lines 235-238) |
| TempMonitor.Monitor.ProcessStateMachine | conoscope/ConoscopeLib/Conoscope/TempMonitoring.cpp:185-233 | the new state, status, error and worker request are exactly those of one step of the transition function |
| TempMonitor.Monitor.CmdSetTemperatureCall | conoscope/ConoscopeLib/Conoscope/TempMonitoring.cpp:267-279 | the target and timeout are recorded even when refused, then one set-temperature step is taken |
| TempMonitor.Monitor.OnWorkerJobDone | conoscope/ConoscopeLib/Conoscope/TempMonitoring.cpp:245-265 | the worker's result drives exactly one step and sends no request |
| TempMonitor.Monitor.CmdReset | conoscope/ConoscopeLib/Conoscope/TempMonitoring.cpp:292-311 | the state, status and error are those of the corrected reset |
| TempMonitor.Monitor.GetTemperatureTarget | conoscope/ConoscopeLib/Conoscope/TempMonitoring.cpp:330-335 | the recorded target temperature |
| TempMonitor.Monitor.GetStatus | conoscope/ConoscopeLib/Conoscope/TempMonitoring.cpp:337-343 | the current status |
| TestAppController.Step | conoscope/ConoscopeTestApp/AppController/appController.cpp:200-283 | an event answers ok exactly when the state handles it, enters its target and sends that state's request; any other event gives "invalid state" and changes nothing |
| TestAppController.JobDoneEvent | conoscope/ConoscopeTestApp/AppController/appController.cpp:295-331 | a failed job and any finished test report TestDone; a reset that succeeded or was aborted reports ResetDone |
| TestAppController.TestAlwaysReturnsToIdle | conoscope/ConoscopeTestApp/AppController/appController.cpp:245-261 | a test ends in Idle whatever its result (see also lines 295-331) |
| TestAppController.FailedResetStaysResetting | conoscope/ConoscopeTestApp/AppController/appController.cpp:262-283 | a failed reset reports TestDone, which Resetting refuses: the controller stays in Resetting (see also lines 326-330) |
| TestAppController.StartsOnlyFromIdle | conoscope/ConoscopeTestApp/AppController/appController.cpp:210-244 | a test or a reset is accepted exactly from Idle |
| TestAppController.ErrorIsFinal | conoscope/ConoscopeTestApp/AppController/appController.cpp:200-283 | the Error state accepts no event |
| TestAppController.Controller.constructor | conoscope/ConoscopeTestApp/AppController/appController.cpp:25-27 | a new controller is Undefined and has asked the worker for nothing |
| TestAppController.Controller.Start | conoscope/ConoscopeTestApp/AppController/appController.cpp:82-93 | only an Undefined controller starts its thread, which enters Idle; any other state is kept (see also lines 285-288) |
| TestAppController.Controller.ProcessStateMachine | conoscope/ConoscopeTestApp/AppController/appController.cpp:200-283 | the new state, error and worker request are exactly those of one step |
| TestAppController.Controller.OnWorkerJobDone | conoscope/ConoscopeTestApp/AppController/appController.cpp:295-331 | the finished job drives exactly one step and sends no request |
| BiWheel.ShortestWayRound | conoscope/ConoscopeLib/EldimDevices/CDevices.cpp:117-141 | the wheel turns the shorter way round; half a turn away either way is as short, and then the sign of the index difference decides |
| BiWheel.PlanGoto | conoscope/ConoscopeLib/EldimDevices/CDevices.cpp:75-159 | a move is refused exactly when the wheel is absent, the motor busy or the index outside 1..8; the wheel is already there exactly when the index is the current slot; a move waits 750 ms per slot of index difference in the chosen direction |
| BiWheel.CurrentStatus | conoscope/ConoscopeLib/EldimDevices/CDevices.cpp:161-168 | an absent wheel reads 0xFF, a present one its motor status |
| BiWheel.Devices.constructor | conoscope/ConoscopeLib/EldimDevices/CDevices.cpp:6-12 | no target, no wheel selected and no motor command sent |
| BiWheel.SelectCommands | conoscope/ConoscopeLib/EldimDevices/CDevices.cpp:30-46 | selecting wheel 0 or 1 tells the motor that number; any other wheel sends the motor nothing |
| BiWheel.Devices.BiWheelGoto | conoscope/ConoscopeLib/EldimDevices/CDevices.cpp:75-159 | a refused move reports an error and changes nothing; an arrived one reports done after recording target and wheel, leaving the delay; a move reports processing with its delay, records target and wheel and sends the motor the wheel selection and then its move commands |
| CameraCmvCxp.FrameCaptured | conoscope/ConoscopeLib/Camera/cameraCmvCxp.cpp:482-492 | only a pending measurement takes the frame and becomes done; any other status ignores it |
| CameraCmvCxp.StartMeasurement | conoscope/ConoscopeLib/Camera/cameraCmvCxp.cpp:553-601 | a measurement starts exactly from Ready with a grabber, otherwise "invalid state" and nothing changes; a finished start is done with the grabber's frame, an unfinished one pending |
| CameraCmvCxp.StopMeasurement | conoscope/ConoscopeLib/Camera/cameraCmvCxp.cpp:603-620 | a stop succeeds exactly when a grabber exists and the status is not Ready, and then goes back to Ready; otherwise "invalid state" and nothing changes |
| CameraCmvCxp.Configure | conoscope/ConoscopeLib/Camera/cameraCmvCxp.cpp:494-527 | a configuration is applied exactly when a grabber exists or the camera is Ready, and then the camera is Ready |
| CameraCmvCxp.GetRawData | conoscope/ConoscopeLib/Camera/cameraCmvCxp.cpp:626-837 | only a finished measurement is read; with a valid frame it is handed out once and the camera is Ready again, an invalid frame index faults with "invalid parameter" |
| CameraCmvCxp.MeasurementCycle | conoscope/ConoscopeLib/Camera/cameraCmvCxp.cpp:553-601 | a measurement started from Ready and read back leaves the camera Ready for the next one (see also lines 626-837) |
| CameraCmvCxp.RawDataOnce | conoscope/ConoscopeLib/Camera/cameraCmvCxp.cpp:626-837 | data can be read only once per measurement |
| CameraCmvCxp.CameraModelOf | conoscope/ConoscopeLib/Camera/cameraCmvCxp.cpp:332-353 | a Critical Link camera is the 8k model exactly for "CMV8000_CXP" and the 50k model otherwise; an Adimec vendor is the Adimec 50k; any other vendor gets no model (`None`) |
| CameraCmvCxp.FanWrites | conoscope/ConoscopeLib/Camera/cameraCmvCxp.cpp:1398-1421 | three writes for fan 0 or 1, six (both fans) from index 2 on; the width is the percentage clamped to 0..100 and the selected fan 0 or 1 |
| CameraCmvCxp.UpdateCaptureConfiguration | conoscope/ConoscopeLib/Camera/cameraCmvCxp.cpp:838-851 | the override of a build without frame averaging: the total number of reads is kept; several reads per capture are folded into one read per capture |
| CameraCmvCxp.BuiltCaptureConfiguration | conoscope/ConoscopeLib/Camera/camera.h:247-249 | what the shipped build runs, the base class's default: both counts are left as they are, so the total is kept too |
| CameraCmvCxp.BuildsAgreeOnSingleRead | conoscope/ConoscopeLib/Camera/cameraCmvCxp.cpp:838-851 | the two builds configure a capture the same way exactly when a capture takes a single read |
| CameraCmvCxp.Camera.constructor | conoscope/ConoscopeLib/Camera/cameraCmvCxp.cpp:17-30 | a new camera is not connected, not initialised, with no frame, no grabber and no model |
| CameraCmvCxp.Camera.IsConnected | conoscope/ConoscopeLib/Camera/cameraCmvCxp.cpp:47-50 | connected exactly in the connected state |
| CameraCmvCxp.Camera.Connect | conoscope/ConoscopeLib/Camera/cameraCmvCxp.cpp:127-292 | with a grabber created the camera is connected, Ready and of the model its vendor and name give; otherwise it fails, keeps its connection state and has no grabber |
| CameraCmvCxp.Camera.Disconnect | conoscope/ConoscopeLib/Camera/cameraCmvCxp.cpp:294-321 | always ends not connected, not initialised and without a grabber |
| CameraCmvCxp.Camera.OnFrameCaptured | conoscope/ConoscopeLib/Camera/cameraCmvCxp.cpp:482-492 | the capture status follows FrameCaptured |
| CameraCmvCxp.Camera.ConfigureCall | conoscope/ConoscopeLib/Camera/cameraCmvCxp.cpp:494-527 | a stop is sent first when a measurement is under way, then the configuration when applied, and the applied exposure is written back |
| CameraCmvCxp.Camera.StartMeasurementCall | conoscope/ConoscopeLib/Camera/cameraCmvCxp.cpp:553-601 | the capture follows StartMeasurement and the grabber is started exactly on success |
| CameraCmvCxp.Camera.StopMeasurementCall | conoscope/ConoscopeLib/Camera/cameraCmvCxp.cpp:603-620 | the capture follows StopMeasurement and the grabber is stopped exactly on success |
| CameraCmvCxp.Camera.GetRawDataCall | conoscope/ConoscopeLib/Camera/cameraCmvCxp.cpp:626-837 | the capture and the error follow GetRawData |
| CameraCmvCxp.Camera.GetStatus | conoscope/ConoscopeLib/Camera/cameraCmvCxp.cpp:546-551 | the current capture status, with ok |
| CameraCmvCxp.Camera.CheckConnection | conoscope/ConoscopeLib/Camera/cameraCmvCxp.cpp:395-408 | ok exactly when a grabber exists and reports that the camera changed; otherwise "failed" |
| CameraCmvCxp.Camera.FwUpdate | conoscope/ConoscopeLib/Camera/cameraCmvCxp.cpp:101-115 | a firmware type other than FPGA or NIOS is refused with "invalid parameter"; a known one goes to the grabber, whose answer is returned |
| CameraCmvCxp.Camera.SetFanSpeed | conoscope/ConoscopeLib/Camera/cameraCmvCxp.cpp:1398-1421 | the registers written are exactly FanWrites |
| I2cMessage.Reverse | conoscope/ConoscopeLib/EldimDevices/CEXI2Message.cpp:205-213 | the bytes in reverse order, one for one |
| I2cMessage.ReverseTwice | conoscope/ConoscopeLib/EldimDevices/CEXI2Message.cpp:205-213 | swapping twice gives the bytes back |
| I2cMessage.LittleEndianRoundTrip | conoscope/ConoscopeLib/EldimDevices/CEXI2Message.cpp:60-100 | an unsigned value that fits in n bytes is read back from its host (least significant first) layout |
| I2cMessage.SignedRoundTrip | conoscope/ConoscopeLib/EldimDevices/CEXI2Message.cpp:44-100 | a signed n-byte value survives two's-complement storage and reading back |
| I2cMessage.Payload | conoscope/ConoscopeLib/EldimDevices/CEXI2Message.cpp:60-100 | a Set call puts exactly n bytes on the wire |
| I2cMessage.Decode | conoscope/ConoscopeLib/EldimDevices/CEXI2Message.cpp:44-89 | a Get call reads an n-byte reply as a signed n-byte value |
| I2cMessage.PayloadRoundTrip | conoscope/ConoscopeLib/EldimDevices/CEXI2Message.cpp:44-100 | a value written by a Set call and echoed by the device is read back unchanged by the Get call |
| I2cMessage.SinkRoundTrip | conoscope/ConoscopeLib/EldimDevices/CEXI2Message.cpp:149-161 | an events-sink address below 128 survives the doubling on write and halving on read; above, the top bit is lost |
| I2cMessage.Ds1624Temperature | conoscope/ConoscopeLib/EldimDevices/CEXI2Message.cpp:129-147 | a 16-bit reading scaled by 125/32000 lies in [0, 256) degrees |
| I2cMessage.Message.constructor | conoscope/ConoscopeLib/EldimDevices/CEXI2Message.cpp:3-9 | a fresh transmit buffer and no transfer yet |
| I2cMessage.Message.CopyAndSwap | conoscope/ConoscopeLib/EldimDevices/CEXI2Message.cpp:205-213 | the n bytes copied at the position are the source reversed and the rest of the buffer is unchanged |
| I2cMessage.Message.Header | conoscope/ConoscopeLib/EldimDevices/CEXI2Message.cpp:17-127 | the first three bytes are the sender, the opcode and the index; the rest is unchanged |
| I2cMessage.Message.Send | conoscope/ConoscopeLib/EldimDevices/CEXI2Message.cpp:17-127 | one transfer of the first length bytes to the address is added |
| I2cMessage.Message.GetBParameter | conoscope/ConoscopeLib/EldimDevices/CEXI2Message.cpp:17-28 | a 3-byte fetch of one byte; the first reply byte is the value |
| I2cMessage.Message.SetBParameter | conoscope/ConoscopeLib/EldimDevices/CEXI2Message.cpp:30-42 | a 5-byte store frame carrying the byte twice |
| I2cMessage.Message.GetParameter | conoscope/ConoscopeLib/EldimDevices/CEXI2Message.cpp:44-89 | a 3-byte fetch with the given opcode, and the reply decoded |
| I2cMessage.Message.SetParameter | conoscope/ConoscopeLib/EldimDevices/CEXI2Message.cpp:60-100 | a (3 + n)-byte store frame: the header then the payload swapped most significant first |
| I2cMessage.Message.GetSParameter | conoscope/ConoscopeLib/EldimDevices/CEXI2Message.cpp:44-58 | a 3-byte fetch of a short, decoded to a value in -32768..32767 |
| I2cMessage.Message.SetSParameter | conoscope/ConoscopeLib/EldimDevices/CEXI2Message.cpp:60-71 | a 5-byte store frame carrying the short most significant byte first |
| I2cMessage.Message.GetLParameter | conoscope/ConoscopeLib/EldimDevices/CEXI2Message.cpp:73-88 | a 3-byte fetch of a long, decoded |
| I2cMessage.Message.SetLParameter | conoscope/ConoscopeLib/EldimDevices/CEXI2Message.cpp:90-100 | a 7-byte store frame carrying the long most significant byte first |
| I2cMessage.Message.SendCommand | conoscope/ConoscopeLib/EldimDevices/CEXI2Message.cpp:102-111 | a 3-byte command frame with nothing read back |
| I2cMessage.Message.GetSCommand | conoscope/ConoscopeLib/EldimDevices/CEXI2Message.cpp:113-127 | a 3-byte command frame with a 2-byte reply, decoded |
| I2cMessage.Message.GetEventsSinkAddress | conoscope/ConoscopeLib/EldimDevices/CEXI2Message.cpp:149-154 | the sink-register byte fetched and halved |
| I2cMessage.Message.SetEventsSinkAddress | conoscope/ConoscopeLib/EldimDevices/CEXI2Message.cpp:156-161 | the doubled address stored in the sink register |
| CoaXpressFrame.GetImageIndex | conoscope/ConoscopeLib/CoaXPress/CoaXpressFrame.cpp:85-89 | the index is always that of the single frame |
| CoaXpressFrame.BytesPerPixel | conoscope/ConoscopeLib/CoaXPress/CoaXpressFrame.cpp:9-13 | one byte per pixel exactly for Mono8, two otherwise |
| CoaXpressFrame.MemoryRoundTrip | conoscope/ConoscopeLib/CoaXPress/CoaXpressFrame.cpp:91-128 | 16-bit pixels laid out as little-endian bytes read back as the same pixels |
| CoaXpressFrame.Accumulate | conoscope/ConoscopeLib/CoaXPress/CoaXpressFrame.cpp:177-193 | one append pass touches only the first n accumulator cells and keeps the accumulator's length |
| CoaXpressFrame.Fold | conoscope/ConoscopeLib/CoaXPress/CoaXpressFrame.cpp:137-209 | successive appends keep the accumulator's length |
| CoaXpressFrame.SumAtBound | conoscope/ConoscopeLib/CoaXPress/CoaXpressFrame.cpp:177-193 | the sum of k 16-bit pixels lies in [0, 65535 k] |
| CoaXpressFrame.FoldAdds | conoscope/ConoscopeLib/CoaXPress/CoaXpressFrame.cpp:186-193 | once something is accumulated, later appends add up exactly while the sum stays below 2^32 |
| CoaXpressFrame.FoldSums | conoscope/ConoscopeLib/CoaXPress/CoaXpressFrame.cpp:177-193 | from an empty accumulator, up to 65537 frames of 16-bit pixels sum without 32-bit wrap-around |
| CoaXpressFrame.Averaged | conoscope/ConoscopeLib/CoaXPress/CoaXpressFrame.cpp:211-272 | the image read keeps its length and holds 16-bit pixels; with nothing accumulated it is left as it was |
| CoaXpressFrame.AverageOfFrames | conoscope/ConoscopeLib/CoaXPress/CoaXpressFrame.cpp:137-272 | the image read after appending k frames, 1 <= k <= 65537, is their floor average, with no truncation |
| CoaXpressFrame.ImageFrame.constructor | conoscope/ConoscopeLib/CoaXPress/CoaXpressFrame.cpp:54-60 | a new frame has no pixels and nothing accumulated |
| CoaXpressFrame.ImageFrame.SetFeature | conoscope/ConoscopeLib/CoaXPress/CoaXpressFrame.cpp:5-36 | the feature is stored, the bytes per pixel follow its format, and image and accumulator become height x width zeros with the count reset (see also lines 72-83) |
| CoaXpressFrame.ImageFrame.StoreImage | conoscope/ConoscopeLib/CoaXPress/CoaXpressFrame.cpp:91-128 | the first height x width x bytes-per-pixel bytes of the image's memory are the buffer's, the rest unchanged |
| CoaXpressFrame.ImageFrame.Initialise | conoscope/ConoscopeLib/CoaXPress/CoaXpressFrame.cpp:38-52 | height and width are recorded and their product returned; the accumulator's first cells are cleared only when nothing is accumulated |
| CoaXpressFrame.ImageFrame.AppendImage | conoscope/ConoscopeLib/CoaXPress/CoaXpressFrame.cpp:137-209 | a buffer larger than the frame changes nothing; otherwise size and zero offset are recorded, its pixels are copied or added into the accumulator and the count grows by one |
| CoaXpressFrame.ImageFrame.AddPixels | conoscope/ConoscopeLib/CoaXPress/CoaXpressFrame.cpp:177-193 | the loop computes exactly one accumulation pass |
| CoaXpressFrame.ImageFrame.GetImage | conoscope/ConoscopeLib/CoaXPress/CoaXpressFrame.cpp:211-272 | the image becomes the accumulated average when something is accumulated, and the count returns to 0 |
| CoaXpressFrame.CopyChunks | conoscope/ConoscopeLib/CoaXPress/CoaXpressFrame.cpp:110-122 | the row-sized memcpy loop leaves the first rows x chunk bytes equal to the source and the rest unchanged |
| CoaXpressGrabber.Exposure | conoscope/ConoscopeLib/CoaXPress/CoaXpressGrabber.cpp:408-418 | the exposure used is the request when it is at least 100 us, and 100 us otherwise |
| CoaXpressGrabber.FramePeriod | conoscope/ConoscopeLib/CoaXPress/CoaXpressGrabber.cpp:420-455 | the period is the largest of exposure, processing time and link minimum plus the sensor lag, and on Adimec cameras it is capped at the maximum period |
| CoaXpressGrabber.FramePeriodMin | conoscope/ConoscopeLib/CoaXPress/CoaXpressGrabber.cpp:120-140 | the minimum period is 50 ms on CXP6_X4, 100 ms on CXP6_X2 (200 ms for CMV8000_CXP), and 1 s on every other link |
| CoaXpressGrabber.TimeoutSteps | conoscope/ConoscopeLib/CoaXPress/CoaXpressGrabber.cpp:1017-1032 | at least one wait, enough waits of stepMs to cover ten frame periods, and at most one wait more than needed |
| CoaXpressGrabber.I2cAddressIndex | conoscope/ConoscopeLib/CoaXPress/CoaXpressGrabber.cpp:377-401 | only Critical Link cameras change the index; it is 1 exactly from firmware 1.15043 on, else 0 |
| CoaXpressGrabber.PixelFormatOf | conoscope/ConoscopeLib/CoaXPress/CoaXpressGrabber.cpp:593-606 | Mono8, Mono10 and Mono12 (also from Mono12p) each exactly from their own names |
| CoaXpressGrabber.Aligned | conoscope/ConoscopeLib/CoaXPress/CoaXpressGrabber.cpp:1163-1166 | the last chunk is rounded up to the next multiple of four bytes |
| CoaXpressGrabber.Packets | conoscope/ConoscopeLib/CoaXPress/CoaXpressGrabber.cpp:1155-1219 | no packets for no data; otherwise just enough full packets to cover the size |
| CoaXpressGrabber.ProgressPlan | conoscope/ConoscopeLib/CoaXPress/CoaXpressGrabber.cpp:1316-1331 | the progress step is at least 1 and at most 200 progress events are announced |
| CoaXpressGrabber.ProgressWithinPlan | conoscope/ConoscopeLib/CoaXPress/CoaXpressGrabber.cpp:1201-1206 | the progress events emitted by a transfer never exceed the announced count (see also lines 1316-1331) |
| CoaXpressGrabber.WritePacket | conoscope/ConoscopeLib/CoaXPress/CoaXpressGrabber.cpp:1177-1199 | a packet write succeeds exactly when the offset advances within the retry limit, and the attempt count stops at the first success |
| CoaXpressGrabber.FileTransferWrite | conoscope/ConoscopeLib/CoaXPress/CoaXpressGrabber.cpp:1140-1219 | the chunks sent are full packets except an aligned last one; the transfer completes exactly when every packet is written, and then covers the data with less than four bytes of padding |
| CoaXpressGrabber.SensorArea | conoscope/ConoscopeLib/CoaXPress/CoaXpressGrabber.cpp:497-522 | a request reaching the sensor border gives the whole sensor at offset 0, any other gives the requested rectangle |
| CoaXpressGrabber.Grabber.constructor | conoscope/ConoscopeLib/CoaXPress/CoaXpressGrabber.cpp:44-94 | a new grabber has no acquisition counting, I2C index 0 and no writes |
| CoaXpressGrabber.Grabber.SetCameraConstants | conoscope/ConoscopeLib/CoaXPress/CoaXpressGrabber.cpp:377-401 | the I2C address index follows the manufacturer and firmware version |
| CoaXpressGrabber.Grabber.Configure | conoscope/ConoscopeLib/CoaXPress/CoaXpressGrabber.cpp:403-570 | the configuration is stored, the exposure clamped and reported back, the period set from it, the manufacturer-specific area and test pattern applied and the exposure written last |
| CoaXpressGrabber.Grabber.ProgramCamera | conoscope/ConoscopeLib/CoaXPress/CoaXpressGrabber.cpp:445-525 | Adimec caps the period; Critical Link sets the test pattern and the delivered area; earlier writes are kept |
| CoaXpressGrabber.Grabber.GetCurrentCaptureTimeoutSteps | conoscope/ConoscopeLib/CoaXPress/CoaXpressGrabber.cpp:1017-1032 | the result is the timeout step count of the current frame period |
| CoaXpressGrabber.Grabber.UpdateFrameSize | conoscope/ConoscopeLib/CoaXPress/CoaXpressGrabber.cpp:571-629 | the delivered area is cleared with the format from its name, and the frame store is sized to the whole sensor |
| CoaXpressGrabber.Grabber.Start | conoscope/ConoscopeLib/CoaXPress/CoaXpressGrabber.cpp:740-837 | an acquisition starts exactly when none is counting; it appends the requested (or configured) number of buffers and ends with the count at 0; otherwise nothing changes |
| ImageConfig.BandsPartition | conoscope/ConoscopeLib/Shared/imageConfiguration.h:70-88 | for an active area centred in the image, each pixel above the active area's bottom lies in exactly one of the top band, the left band, the right band and the active area (see also lines 328-341) |
| ImageConfig.CornersInsideActive | conoscope/ConoscopeLib/Shared/imageConfiguration.h:90-95 | bias corners at most half the active area's size lie inside it and do not overlap (see also lines 348-366) |
| ImageConfig.BiasCenterInside | conoscope/ConoscopeLib/Shared/imageConfiguration.h:368-372 | for an active area at least as wide as high, the bias centre lies inside it with margins that differ by at most one pixel |
| ImageConfig.ImageConfiguration.constructor | conoscope/ConoscopeLib/Shared/imageConfiguration.h:54-100 | the default layout is a 3584x2528 image with a 3360x2496 active area at (112, 32), bias corners of 32x70 and the central area at 492, with every derived field consistent (see also lines 271-291) |
| ImageConfig.ImageConfiguration.Copy | conoscope/ConoscopeLib/Shared/imageConfiguration.h:293-313 | the base fields are copied and the derived ones recomputed from them |
| ImageConfig.ImageConfiguration.UpdateSettings | conoscope/ConoscopeLib/Shared/imageConfiguration.h:315-373 | the derived fields are recomputed from the base ones, which are kept |
| ImageConfig.ImageConfiguration.Assign | conoscope/ConoscopeLib/Shared/imageConfiguration.h:180-373 | assignment copies every field as it was before the call, also onto itself, and a consistent source gives a consistent copy |
| AppHelper.StepUpReaches | conoscope/ConoscopeLib/ConoscopeApp/ConoscopeAppHelper.cpp:62-68 | the minimum loop ends at or above the minimum, by whole granularity steps, overshooting by less than one step |
| AppHelper.StepDownReaches | conoscope/ConoscopeLib/ConoscopeApp/ConoscopeAppHelper.cpp:70-76 | the maximum loop ends at or below the maximum, by whole granularity steps, undershooting by less than one step |
| AppHelper.GranularNearest | conoscope/ConoscopeLib/ConoscopeApp/ConoscopeAppHelper.cpp:43-56 | a time above the granularity becomes the nearest multiple of it, a remainder of exactly half rounding down |
| AppHelper.GetExposureTime | conoscope/ConoscopeLib/ConoscopeApp/ConoscopeAppHelper.cpp:38-79 | the loops compute the granular time, raised by whole steps to a nonzero minimum, then lowered by whole steps to a nonzero maximum |
| AppHelper.ExposureTimeBounds | conoscope/ConoscopeLib/ConoscopeApp/ConoscopeAppHelper.cpp:38-79 | the exposure time differs from the granular time by whole steps, never exceeds a nonzero maximum, reaches a nonzero minimum when the range holds a step, and is the granular time when that is already in range |
| AppHelper.ProcessAutoExposure | conoscope/ConoscopeLib/ConoscopeApp/ConoscopeAppHelper.cpp:385-444 | the loop locks exactly at a bound or with the maximum strictly between the thresholds, keeping the time; otherwise the proposed time is clamped into the bounds |
| AppHelper.ClampedStepLocksNext | conoscope/ConoscopeLib/ConoscopeApp/ConoscopeAppHelper.cpp:391-441 | an unlocked step leaves the time within the bounds, and one clamped onto a bound locks the next step |
| ConoscopeTypes.FilterCode | conoscope/ConoscopeTestApp/Conoscope/conoscopeTypes.h:101-112 | each filter's value is its position in the declaration |
| ConoscopeTypes.NdCode | conoscope/ConoscopeTestApp/Conoscope/conoscopeTypes.h:114-122 | each ND's value is its position in the declaration |
| ConoscopeTypes.IrisCode | conoscope/ConoscopeTestApp/Conoscope/conoscopeTypes.h:124-131 | each iris index's value is its position in the declaration |
| ConoscopeTypes.WheelStateCode | conoscope/ConoscopeTestApp/Conoscope/conoscopeTypes.h:148-154 | the four wheel states take the values 0 to 3 |
| ConoscopeTypes.TemperatureCode | conoscope/ConoscopeTestApp/Conoscope/conoscopeTypes.h:156-163 | the five monitoring states take the values 0 to 4 |
| ConoscopeResource.FilterTableInjective | conoscope/ConoscopeLib/Conoscope/ConoscopeResource.cpp:9-46 | no two filters share a text, so the reverse table built by the loop loses none |
| ConoscopeResource.NdIrisTablesInjective | conoscope/ConoscopeLib/Conoscope/ConoscopeResource.cpp:19-56 | no two ND positions and no two iris indices share a text |
| ConoscopeResource.NdIrisNamesDotless | conoscope/ConoscopeLib/Conoscope/ConoscopeResource.cpp:19-30 | no ND or iris text holds a dot |
| ConoscopeResource.ToText | conoscope/ConoscopeLib/Conoscope/ConoscopeResource.cpp:78-93 | an unknown value gives "ERROR", a known one its text, and with dots replaced the text holds none |
| ConoscopeResource.ToInt | conoscope/ConoscopeLib/Conoscope/ConoscopeResource.cpp:95-105 | a known text gives its value and any other gives -1 |
| ConoscopeResource.Resource.constructor | conoscope/ConoscopeLib/Conoscope/ConoscopeResource.cpp:7-62 | the forward tables are filled and each reverse table is the inversion of its forward table |
| ConoscopeResource.Resource.ConvertFilterText | conoscope/ConoscopeLib/Conoscope/ConoscopeResource.cpp:107-156 | converting the text of any filter gives its value back |
| ConoscopeResource.Resource.ConvertNdText | conoscope/ConoscopeLib/Conoscope/ConoscopeResource.cpp:112-156 | converting the text of any ND position, dots removed or not, gives its value back |
| ConoscopeResource.Resource.ConvertIrisText | conoscope/ConoscopeLib/Conoscope/ConoscopeResource.cpp:117-156 | converting the text of any iris index, dots removed or not, gives its value back |
| ConoscopeResource.Resource.ConvertUnknown | conoscope/ConoscopeLib/Conoscope/ConoscopeResource.cpp:95-105 | a text that names no value converts to -1 in every table (see also lines 135-156) |
| DefectCorrector.Translate | conoscope/ConoscopePipeline/Pipeline/PipelineDefectCorrector.cpp:77-82 | a defect inside the captured window lands inside the raw buffer |
| DefectCorrector.SlotOf | conoscope/ConoscopePipeline/Pipeline/PipelineDefectCorrector.cpp:264-273 | slot 3 x row + column of the neighbourhood is the neighbour column - 1 across and row - 1 down |
| DefectCorrector.SlotValidMeans | conoscope/ConoscopePipeline/Pipeline/PipelineDefectCorrector.cpp:180-205 | for either lookup, a neighbour counts exactly when it is inside the image, is not listed under that lookup, and no top-row, left-column or right-column rule cuts it (see also lines 270, 283-296) |
| DefectCorrector.ValidCount | conoscope/ConoscopePipeline/Pipeline/PipelineDefectCorrector.cpp:217-226 | no more neighbours are counted than slots examined |
| DefectCorrector.ValidSumBounds | conoscope/ConoscopePipeline/Pipeline/PipelineDefectCorrector.cpp:217-226 | the sum of the counted neighbours lies between count x lo and count x hi when every pixel lies in [lo, hi] |
| DefectCorrector.Replacement | conoscope/ConoscopePipeline/Pipeline/PipelineDefectCorrector.cpp:228-235 | for either lookup, there is a replacement value exactly when some neighbour counts |
| DefectCorrector.MeanBounds | conoscope/ConoscopePipeline/Pipeline/PipelineDefectCorrector.cpp:234 | the truncated mean of values in a range containing 0 stays in that range |
| DefectCorrector.ReplacementInRange | conoscope/ConoscopePipeline/Pipeline/PipelineDefectCorrector.cpp:228-235 | the replacement of a defect in a 16-bit buffer is itself a 16-bit value, so the int16 store never wraps |
| DefectCorrector.CorrectOne | conoscope/ConoscopePipeline/Pipeline/PipelineDefectCorrector.cpp:103-246 | correcting one defect, with either lookup, keeps the buffer's length |
| DefectCorrector.CorrectAll | conoscope/ConoscopePipeline/Pipeline/PipelineDefectCorrector.cpp:46-101 | correcting the listed defects, with either lookup, keeps the buffer's length |
| DefectCorrector.OnlyListedWritten | conoscope/ConoscopePipeline/Pipeline/PipelineDefectCorrector.cpp:68-98 | only the positions of defects inside the window change (see also lines 232-234) |
| DefectCorrector.CorrectAllInt16 | conoscope/ConoscopePipeline/Pipeline/PipelineDefectCorrector.cpp:46-101 | a 16-bit buffer stays a 16-bit buffer after correction (see also line 234) |
| DefectCorrector.ListedNeighbourCountedAsWritten | conoscope/ConoscopePipeline/Pipeline/PipelineDefectCorrector.cpp:296-316 | with the buffer-coordinate lookup the class uses, a listed defect next to another counts as valid once the window has an offset, while the sensor-coordinate lookup refuses it (see also lines 81-82) |
| DefectCorrector.ListedNeighbourInvalid | conoscope/ConoscopePipeline/Pipeline/PipelineDefectCorrector.cpp:296-316 | with the lookup in sensor coordinates, no listed defect inside the window is ever averaged in |
| DefectCorrector.IsDefective | conoscope/ConoscopePipeline/Pipeline/PipelineDefectCorrector.cpp:302-320 | the search answers true exactly when the position is in the list |
| DefectCorrector.Corrector.constructor | conoscope/ConoscopePipeline/Pipeline/PipelineDefectCorrector.cpp:20-23 | a corrector starts with the given image geometry |
| DefectCorrector.Corrector.SetImageConfiguration | conoscope/ConoscopePipeline/Pipeline/PipelineDefectCorrector.cpp:27-32 | the image geometry is replaced |
| DefectCorrector.Corrector.GetPixelValue | conoscope/ConoscopePipeline/Pipeline/PipelineDefectCorrector.cpp:278-300 | a pixel outside the image reads 0 and is invalid; one inside reads its value and, as written, is valid exactly when its buffer coordinates are not in the defect list |
| DefectCorrector.Corrector.GetNeighborPixels | conoscope/ConoscopePipeline/Pipeline/PipelineDefectCorrector.cpp:248-276 | the nine neighbours, row by row from the top left, each with its value and its validity under the buffer-coordinate lookup |
| DefectCorrector.Corrector.CorrectDefectivePixel | conoscope/ConoscopePipeline/Pipeline/PipelineDefectCorrector.cpp:103-246 | the buffer afterwards is the one-defect correction, with the buffer-coordinate lookup, of the buffer before |
| DefectCorrector.Corrector.ApplySegments | conoscope/ConoscopePipeline/Pipeline/PipelineDefectCorrector.cpp:180-205 | a slot stays valid exactly when it was valid and no segment rule cuts it |
| DefectCorrector.Corrector.SumValid | conoscope/ConoscopePipeline/Pipeline/PipelineDefectCorrector.cpp:217-226 | the loop computes the sum and the number of the neighbours counted under the buffer-coordinate lookup |
| DefectCorrector.Corrector.Correct | conoscope/ConoscopePipeline/Pipeline/PipelineDefectCorrector.cpp:40-101 | the buffer afterwards is the correction of every listed defect, in order, with the buffer-coordinate lookup |
| PipelineCompute.ToUnsigned16 | conoscope/ConoscopePipeline/Pipeline/PipelineCompute.cpp:206-213 | the (uint16_t) cast of a 16-bit pixel: negatives map to value + 65536, the rest unchanged |
| PipelineCompute.Wrap16 | conoscope/ConoscopePipeline/Pipeline/PipelineCompute.cpp:1245-1262 | the int16 store of a difference: always a 16-bit value, and the value itself when it fits |
| PipelineCompute.WrapUndo | conoscope/ConoscopePipeline/Pipeline/PipelineCompute.cpp:1232-1267 | subtracting and re-adding a bias with 16-bit wrap-around gives every 16-bit pixel back |
| PipelineCompute.CalibratedDataSize | conoscope/ConoscopePipeline/Pipeline/PipelineCompute.cpp:106-110 | the calibrated data is the square of side 2 x radius + 1, never empty (see also lines 350-354) |
| PipelineCompute.CellSplit | conoscope/ConoscopePipeline/Pipeline/PipelineCompute.cpp:1015-1027 | a row-major index splits back into its row and column |
| PipelineCompute.CellInside | conoscope/ConoscopePipeline/Pipeline/PipelineCompute.cpp:1015-1027 | a row-major index of a cell inside the grid lies inside the buffer |
| PipelineCompute.BiasUndo | conoscope/ConoscopePipeline/Pipeline/PipelineCompute.cpp:1232-1267 | applying a bias then its opposite leaves a 16-bit buffer unchanged |
| PipelineCompute.BiasKeepsDifferences | conoscope/ConoscopePipeline/Pipeline/PipelineCompute.cpp:1232-1267 | without wrap-around, the bias keeps the difference between any two pixels |
| PipelineCompute.ApplyBias | conoscope/ConoscopePipeline/Pipeline/PipelineCompute.cpp:1239-1255 | the buffer afterwards is the biased buffer: the first size pixels lowered by the bias with 16-bit wrap-around, the rest unchanged |
| PipelineCompute.Saturation | conoscope/ConoscopePipeline/Pipeline/PipelineCompute.cpp:196-216 | the flag is set exactly when some pixel, read unsigned, reaches the saturation value, and the maximum is the largest unsigned pixel |
| PipelineCompute.MaskedCell | conoscope/ConoscopePipeline/Pipeline/PipelineCompute.cpp:1015-1027 | the pixel at a cell is cleared exactly when the cell lies outside the viewing circle |
| PipelineCompute.RestrictIdempotent | conoscope/ConoscopePipeline/Pipeline/PipelineCompute.cpp:978-1042 | restricting twice is restricting once |
| PipelineCompute.RestrictCentreAndCorner | conoscope/ConoscopePipeline/Pipeline/PipelineCompute.cpp:978-1042 | the centre is always kept and, for a positive radius, the corner is always cleared |
| PipelineCompute.RestrictToViewingAngle | conoscope/ConoscopePipeline/Pipeline/PipelineCompute.cpp:978-1042 | the data afterwards is the data restricted to the viewing circle |
| PipelineCompute.RestrictRow | conoscope/ConoscopePipeline/Pipeline/PipelineCompute.cpp:1018-1026 | the inner loop clears exactly the masked cells of its row |
| PipelineCompute.CropSource | conoscope/ConoscopePipeline/Pipeline/PipelineCompute.cpp:517-531 | the source pixel of each square pixel lies inside the captured image |
| PipelineCompute.CropCell | conoscope/ConoscopePipeline/Pipeline/PipelineCompute.cpp:512-535 | each square pixel is the captured pixel offset by the centring margins, and the margins differ by at most one pixel |
| PipelineCompute.CropCentre | conoscope/ConoscopePipeline/Pipeline/PipelineCompute.cpp:505-545 | the square afterwards is the centred crop of the captured image when it fits, and unchanged otherwise |
| PipelineCompute.CopySquare | conoscope/ConoscopePipeline/Pipeline/PipelineCompute.cpp:523-533 | the line loop fills the first length x length pixels with the centred crop and leaves the rest |
| PipelineCompute.CopyLine | conoscope/ConoscopePipeline/Pipeline/PipelineCompute.cpp:529-531 | the memcpy copies exactly one line of input into place |
| PipelineCompute.SquareLines | conoscope/ConoscopePipeline/Pipeline/PipelineCompute.cpp:523-533 | the first lines of the square hold lines x length pixels |
| PipelineCompute.SquareLinesAt | conoscope/ConoscopePipeline/Pipeline/PipelineCompute.cpp:523-533 | each pixel of the square's first lines is its centred source pixel |
| PipelineCompute.LineCount | conoscope/ConoscopePipeline/Pipeline/PipelineCompute.cpp:1070-1108 | the pixels counted in one line are no more than those examined |
| PipelineCompute.BandsCount | conoscope/ConoscopePipeline/Pipeline/PipelineCompute.cpp:1065-1109 | the count of pixels in the bands is never negative |
| PipelineCompute.BandsCountQuiet | conoscope/ConoscopePipeline/Pipeline/PipelineCompute.cpp:1044-1112 | an image with no pixel above the threshold has no wrong band pixel |
| PipelineCompute.LineQuiet | conoscope/ConoscopePipeline/Pipeline/PipelineCompute.cpp:1070-1108 | a line with no pixel above the threshold contributes nothing |
| PipelineCompute.BandsMeanOutsideActive | conoscope/ConoscopePipeline/Pipeline/PipelineCompute.cpp:1073-1107 | for a symmetric layout the three bands are exactly the pixels above the active area's bottom that are not in the active area |
| PipelineCompute.NonTypicalWholeActive | conoscope/ConoscopePipeline/Pipeline/PipelineCompute.cpp:1361-1399 | corrected layout: a size other than the reference one makes the whole image active, with no central offsets |
| PipelineCompute.TypicalRestoresReference | conoscope/ConoscopePipeline/Pipeline/PipelineCompute.cpp:1401-1405 | corrected layout: the reference image size restores the reference configuration |
| PipelineCompute.NextCornersFit | conoscope/ConoscopePipeline/Pipeline/PipelineCompute.cpp:1378-1394 | corrected layout: bias corners that fit the reference still fit the new layout |
| PipelineCompute.CornerHeightDroppedAsWritten | conoscope/ConoscopePipeline/Pipeline/PipelineCompute.cpp:1387-1394 | as written, the corner-height test compares the reference with itself, so a 1000x1000 image loses its 70-line corners |
| PipelineCompute.CornerHeightNeverKeptAsWritten | conoscope/ConoscopePipeline/Pipeline/PipelineCompute.cpp:1387-1394 | as written, whenever the current corner height is below twice the reference one (the reference height or 0, the only values it takes) a non-typical capture sets it to 0; otherwise the layout is the corrected one |
| PipelineCompute.RepeatedSizeRestoresReferenceAsWritten | conoscope/ConoscopePipeline/Pipeline/PipelineCompute.cpp:1361-1405 | as written, the same non-typical size given twice is taken as typical the second time and restores the 3584-wide reference |
| PipelineCompute.Compute.constructor | conoscope/ConoscopePipeline/Pipeline/PipelineCompute.cpp:71-74 | both the working and the reference configuration start at the default layout |
| PipelineCompute.Compute.SetImageConfiguration | conoscope/ConoscopePipeline/Pipeline/PipelineCompute.cpp:96-104 | the working and the reference configuration both become the given one as it was before the call, also when it is one of them, and the corrector gets its size |
| PipelineCompute.Compute.SetImageSize | conoscope/ConoscopePipeline/Pipeline/PipelineCompute.cpp:1359-1409 | as written, the working configuration becomes the next layout computed from the current one and the reference, and the reference is kept |
| PipelineCompute.Compute.ComputeWrongBands | conoscope/ConoscopePipeline/Pipeline/PipelineCompute.cpp:1044-1112 | a size other than the configured image gives 0; otherwise the count of band pixels above the threshold |
| PipelineCompute.CountLine | conoscope/ConoscopePipeline/Pipeline/PipelineCompute.cpp:1068-1108 | the inner loop counts one line's band pixels above the threshold |
| ConoscopeProcess.PositionTablesInjective | conoscope/ConoscopeLib/Conoscope/ConoscopeProcess.cpp:96-118 | no two ND positions and no two filters share a wheel slot, so the reverse tables lose nothing |
| ConoscopeProcess.NdTableInjective | conoscope/ConoscopeLib/Conoscope/ConoscopeProcess.cpp:96-104 | no two ND positions share a wheel slot |
| ConoscopeProcess.FilterTableInjective | conoscope/ConoscopeLib/Conoscope/ConoscopeProcess.cpp:107-118 | no two filters share a wheel slot |
| ConoscopeProcess.RevertMapsInvert | conoscope/ConoscopeLib/Conoscope/ConoscopeProcess.cpp:102-119 | each reverse table maps every slot of its forward table back to its entry, and holds no other slot |
| ConoscopeProcess.Hal.constructor | conoscope/ConoscopeLib/Conoscope/ConoscopeProcess.cpp:63-74 | the wheel, status and wheel-type tables are filled and each reverse table is its forward table inverted (see also lines 93-129) |
| ConoscopeProcess.Hal.ReadWheels | conoscope/ConoscopeLib/Conoscope/ConoscopeProcess.cpp:2964-3050 | success exactly when the motor reports success and both wheel slots map to an ND and a filter, which are then those slots' entries; a failed motor status is passed on with both wheels invalid; a slot above 8 is an error with both wheels invalid; an unmapped slot is an error in which the wheel whose slot is mapped keeps its entry and the other is invalid |
| ConoscopeProcess.MeasureFilterCheck | conoscope/ConoscopeLib/Conoscope/ConoscopeProcess.cpp:812-818 | a measure is refused as an invalid configuration exactly with the Mirror filter |
| ConoscopeProcess.GetNeededCfgFiles | conoscope/ConoscopeLib/Conoscope/ConoscopeProcess.cpp:2860-2887 | the camera file is needed exactly for bias, defect or PRNU correction, the optical-column file exactly for linearisation, the flat-field file exactly for flat field or absolute |
| ConoscopeProcess.NeededFilesMonotone | conoscope/ConoscopeLib/Conoscope/ConoscopeProcess.cpp:2860-2887 | enabling more processing never needs fewer files |
| ConoscopeProcess.FormatFileName | conoscope/ConoscopeLib/Conoscope/ConoscopeProcess.cpp:3301-3332 | an empty template gives an empty name |
| ConoscopeProcess.FormatSkipsEmpty | conoscope/ConoscopeLib/Conoscope/ConoscopeProcess.cpp:3299-3319 | a key absent or given an empty value leaves the name unchanged |
| ConoscopeProcess.FormatWithoutValues | conoscope/ConoscopeLib/Conoscope/ConoscopeProcess.cpp:3301-3332 | with no non-empty value the template comes back unchanged |
| ConoscopeProcess.FormatWithoutPlaceholder | conoscope/ConoscopeLib/Conoscope/ConoscopeProcess.cpp:3299-3319 | a key whose placeholder the name does not hold leaves the name unchanged |
| ConoscopeProcess.PairStepAsWritten | conoscope/ConoscopeLib/Conoscope/ConoscopeProcess.cpp:3337-3351 | as written, one turn of the removal loop stops exactly when the name lacks a '<' or a '>'; it leaves the name unchanged, so the loop goes round again, exactly when the first '>' stands just before the first '<' (a zero-length replace); and it passes a negative length exactly when the first '>' stands further before the first '<' |
| ConoscopeProcess.CleanLoopStuckAsWritten | conoscope/ConoscopeLib/Conoscope/ConoscopeProcess.cpp:3337-3351 | as written, the name "a><b" goes round the removal loop again unchanged |
| ConoscopeProcess.StripPairs | conoscope/ConoscopeLib/Conoscope/ConoscopeProcess.cpp:3337-3351 | removing "<...>" spans never lengthens the name |
| ConoscopeProcess.Collapse | conoscope/ConoscopeLib/Conoscope/ConoscopeProcess.cpp:3356-3359 | the collapsed name holds no "__" |
| ConoscopeProcess.CollapseChars | conoscope/ConoscopeLib/Conoscope/ConoscopeProcess.cpp:3356-3359 | collapsing introduces no character other than '_' |
| ConoscopeProcess.CleanedIsClean | conoscope/ConoscopeLib/Conoscope/ConoscopeProcess.cpp:3334-3360 | the cleaned name holds neither '<' nor '>' nor "__" |
| ConoscopeProcess.CleanKeepsClean | conoscope/ConoscopeLib/Conoscope/ConoscopeProcess.cpp:3334-3360 | a name already clean is left as it is |
| ConoscopeProcess.CleanFileName | conoscope/ConoscopeLib/Conoscope/ConoscopeProcess.cpp:3334-3360 | the loops compute the cleaned name, so it holds neither '<' nor '>' nor "__" |
| ConoscopeProcess.ListTrim | conoscope/ConoscopeLib/Conoscope/ConoscopeProcess.cpp:3221-3229 | the list keeps its first listSize elements, or all of them when it is no longer |
| ConoscopeProcess.ListAverage | conoscope/ConoscopeLib/Conoscope/ConoscopeProcess.cpp:3231-3245 | the loop computes the floor mean of the list, which fits in 16 bits |
| ConoscopeProcess.AverageBounds | conoscope/ConoscopeLib/Conoscope/ConoscopeProcess.cpp:3231-3245 | the mean of values within bounds is within the same bounds |
| ConoscopeProcess.SumBounds | conoscope/ConoscopeLib/Conoscope/ConoscopeProcess.cpp:3236-3241 | the sum of values in [lo, hi] lies between n x lo and n x hi |
| ConoscopeConfig.Clamp | conoscope/ConoscopeLib/Conoscope/ConoscopeConfig.h:58-68 | `_CheckThreshold`: the result lies in [min, max], is the value itself when already inside, and the nearer bound otherwise |
| ConoscopeConfig.AtMost | conoscope/ConoscopeLib/Conoscope/ConoscopeConfig.cpp:220 | `CHECK_MAX_VALUE`: the result never exceeds the maximum, keeps a value at or below it, and is the maximum otherwise |
| ConoscopeConfig.AlignValue | conoscope/ConoscopeLib/Conoscope/ConoscopeConfig.cpp:219 | `ALIGN_VALUE` with C's truncating remainder: the result is a multiple of the step, no farther than one step from the value toward zero, has the value's sign, and equals a value already aligned |
| ConoscopeConfig.AreaHeightMisalignedAsWritten | conoscope/ConoscopeLib/Conoscope/ConoscopeConfig.cpp:314-331 | as written, cutting the AE area height to fit the sensor (height 3200 at row 2902) leaves 3102, not a multiple of 4 |
| ConoscopeConfig.FitArea | conoscope/ConoscopeLib/Conoscope/ConoscopeConfig.cpp:314-331 | corrected area fit: every coordinate keeps its alignment (4, 16, 16, 2), the area lies inside the 7920 x 6004 sensor, and an area that already met both rules is kept unchanged |
| ConoscopeConfig.ParsedIsNormal | conoscope/ConoscopeLib/Conoscope/ConoscopeConfig.cpp:296-374 | with the corrected fit, whatever the document holds, the record read has its exposures clamped to [10, 985000], granularity to [1, 985000], level to [0, 100], an aligned AE area inside the sensor and ROI edges at most 6001 with right >= left and bottom >= top |
| ConoscopeConfig.DocumentSections | conoscope/ConoscopeLib/Conoscope/ConoscopeConfig.cpp:386-475 | each of the seven sections of a saved document is found under its label and holds that part of the record |
| ConoscopeConfig.SavedCountBySection | conoscope/ConoscopeLib/Conoscope/ConoscopeConfig.cpp:251-258 | the item count of a saved document is the sum of its seven section sizes (see also lines 386-475) |
| ConoscopeConfig.SavedCount | conoscope/ConoscopeLib/Conoscope/ConoscopeConfig.cpp:251-265 | every saved document holds exactly the 53 items `_Load` checks for, so a saved file passes the count check (see also lines 386-475) |
| ConoscopeConfig.SettingsRoundTrip | conoscope/ConoscopeLib/Conoscope/ConoscopeConfig.cpp:291-353 | a settings record that already keeps the load rules reads back from its saved object unchanged (see also lines 418-441) |
| ConoscopeConfig.CaptureRoundTrip | conoscope/ConoscopeLib/Conoscope/ConoscopeConfig.cpp:359-379 | a capture-sequence record with exposures inside [10, 985000] reads back from its saved object unchanged (see also lines 449-465) |
| ConoscopeConfig.SetupRoundTrip | conoscope/ConoscopeLib/Conoscope/ConoscopeConfig.cpp:269-272 | the setup section reads back from its saved object unchanged (see also lines 388-393) |
| ConoscopeConfig.MeasureRoundTrip | conoscope/ConoscopeLib/Conoscope/ConoscopeConfig.cpp:274-277 | the measure section reads back from its saved object unchanged (see also lines 395-400) |
| ConoscopeConfig.ProcessingRoundTrip | conoscope/ConoscopeLib/Conoscope/ConoscopeConfig.cpp:279-284 | the processing section reads back from its saved object unchanged (see also lines 402-409) |
| ConoscopeConfig.DebugRoundTrip | conoscope/ConoscopeLib/Conoscope/ConoscopeConfig.cpp:286-289 | the debug section reads back from its saved object unchanged (see also lines 411-416) |
| ConoscopeConfig.SettingsIRoundTrip | conoscope/ConoscopeLib/Conoscope/ConoscopeConfig.cpp:355-357 | corrected: the internal settings read back unchanged when the pixel limit is read under the key it is saved with (see also lines 443-447) |
| ConoscopeConfig.ParsedSaved | conoscope/ConoscopeLib/Conoscope/ConoscopeConfig.cpp:227-487 | loading a saved document parses each section from the object saved for it |
| ConoscopeConfig.LoadInvertsSave | conoscope/ConoscopeLib/Conoscope/ConoscopeConfig.cpp:227-487 | corrected loader: a record that keeps the load rules, saved and loaded back, is the same record |
| ConoscopeConfig.AsWrittenDiffersInTwoFields | conoscope/ConoscopeLib/Conoscope/ConoscopeConfig.cpp:314-357 | on every document, `_Load` as written and the corrected loader agree except for the AE height, unaligned after the cut, and `AEMaxNbPixel`, read under `captureSequenceMaxNbPixel` |
| ConoscopeConfig.LoadAsWrittenLosesMaxNbPixel | conoscope/ConoscopeLib/Conoscope/ConoscopeConfig.cpp:227-487 | as written, a record that keeps the load rules, saved and loaded back, is the same record except that `AEMaxNbPixel` is 0 |
| ConoscopeConfig.MaxNbPixelLostAsWritten | conoscope/ConoscopeLib/Conoscope/ConoscopeConfig.cpp:357 | as written, `AEMaxNbPixel` is saved under its own name but read under `captureSequenceMaxNbPixel`, so it always reads back as 0 (see also line 447) |
| ConoscopeConfig.DefaultRoiClippedOnReload | conoscope/ConoscopeLib/Conoscope/ConoscopeConfig.cpp:148-218 | the default ROI's right and bottom edges exceed 6001, so a saved default record reloads with them clipped to 6001 (see also lines 340-343) |
| ConoscopeConfig.Config.constructor | conoscope/ConoscopeLib/Conoscope/ConoscopeConfig.cpp:24-44 | `bSaveConfig` starts set; a stored file with 53 items gives the record `_Load` as written reads from it; an unreadable file leaves the defaults; a missing file or a wrong count gives the defaults and saves them |
| ConoscopeConfig.Config.Default | conoscope/ConoscopeLib/Conoscope/ConoscopeConfig.cpp:148-218 | `_Default`: the record becomes the default record and nothing else changes |
| ConoscopeConfig.Config.Save | conoscope/ConoscopeLib/Conoscope/ConoscopeConfig.cpp:386-487 | `_Save`: the file holds the saved document of the record, which is unchanged |
| ConoscopeConfig.Config.Load | conoscope/ConoscopeLib/Conoscope/ConoscopeConfig.cpp:227-385 | `_Load`: fails exactly when a stored file's count is not 53; a complete file replaces the record with the record read as written; otherwise the record is kept; the file is never changed |
| ConoscopeConfig.Config.SetSetup | conoscope/ConoscopeLib/Conoscope/ConoscopeConfig.cpp:50-57 | with `bSaveConfig` set, the setup part is replaced and the file saved; without it nothing changes |
| ConoscopeConfig.Config.SetMeasure | conoscope/ConoscopeLib/Conoscope/ConoscopeConfig.cpp:64-71 | with `bSaveConfig` set, the measure part is replaced and the file saved; without it nothing changes |
| ConoscopeConfig.Config.SetMeasureWithCropFactor | conoscope/ConoscopeLib/Conoscope/ConoscopeConfig.cpp:73-80 | with `bSaveConfig` set, the measure part takes the given values without the crop area and the file is saved; without it nothing changes |
| ConoscopeConfig.Config.SetProcessing | conoscope/ConoscopeLib/Conoscope/ConoscopeConfig.cpp:87-94 | with `bSaveConfig` set, the processing part is replaced and the file saved; without it nothing changes |
| ConoscopeConfig.Config.SetDebug | conoscope/ConoscopeLib/Conoscope/ConoscopeConfig.cpp:101-108 | with `bSaveConfig` set, the debug part is replaced and the file saved; without it nothing changes |
| ConoscopeConfig.Config.SetSettings | conoscope/ConoscopeLib/Conoscope/ConoscopeConfig.cpp:115-122 | with `bSaveConfig` set, the settings are stored as given, unclamped, and the file saved; without it nothing changes |
| ConoscopeConfig.Config.SetCaptureSequence | conoscope/ConoscopeLib/Conoscope/ConoscopeConfig.cpp:139-146 | with `bSaveConfig` set, the capture-sequence part is replaced and the file saved; without it nothing changes |
| ConoscopeConfig.StoredRecordReloads | conoscope/ConoscopeLib/Conoscope/ConoscopeConfig.cpp:24-44 | a record that keeps the load rules saves a file that passes the 53-item check and, with the corrected loader, reloads to the same record (see also lines 227-487) |

## Left out

- Transports and SDKs: VISA sessions, the serial line, PySpin, the Euresys frame-grabber SDK, I2C register access and `HwTool.h` are not modelled. Their answers are parameters of the operations that use them.
- The connection operations of the three instruments are not modelled: `connect`, `disconnect`, `is_connected`, `reset`, `self_test`, `get_identification`, `start_measurement`, `stop_measurement` and `measure` only talk to the instrument. The relay board's `read_voltage` and `read_all_voltages`, and the multimeter's `measure_*` readings, are left out for the same reason. The multimeter's `measure_*` function choices are the `AgilentDmm.Helper` values.
- `export_data` (base_equipment.py:212-250) writes files and is not modelled.
- `__str__` and `__repr__` are not modelled.
- BaseEquipment.Equipment.SetMeasurementActive and BaseEquipment.Equipment.SetLastError are one-field setters. They stand for the subclasses' own assignments to `_measurement_active` and `last_error`.
- KtaRelay: the relay list in the defaults is shared with the configuration in Python, because `update` copies the reference. The model keeps them as separate values, so set_relay_state does not also change `default_config`.
- PowerSupply and AgilentDmm: voltages, currents and ranges are `real` values. The formatting of numbers in the command strings is not modelled.
- The GUI layers are not part of this model:
  - the GUI part of equipment_controller.py;
  - the forms;
  - the viewer's widget and paint code. Only its buffer computations are modelled.
- Threads are modelled as sequential steps:
  - the worker and `QThread` plumbing;
  - the capture-sequence thread;
  - the wait loops for the wheel and for setup.
  A cancel request from another thread becomes the step at which the worker sees it (`AppWorker.RunSteps`).
- ConoscopeSm: `MeasureConfig` holds only the exposure and the acquisition count, the two fields `CmdMeasure` checks; the rest of `MeasureConfigWithCropFactor_t` is not modelled. A measure or processing configuration read as a setup is recorded as `Reinterpreted`, without the values it yields.
- ConoscopeSm: a null dereference in the debug setup is recorded as `NullDereferenced` and the model carries on; what the process does after it is undefined. The debug flag is fixed for the machine's lifetime, where the source reads it again from the configuration at each ChangeState.
- ConoscopeSm and ConoscopeAppSm: the source leaves `mStatePrevious` uninitialised until the first state change. The model starts it at `Undefined`.
- ConoscopeSm: `MULTITHREAD_CAPTURE_SEQUENCE` is taken as undefined.
- TempMonitor.ResetAsWritten: the error the source returns from an uninitialised variable is a parameter, `indeterminate`.
- TempMonitor.Monitor.constructor: the source leaves the recorded set-temperature parameters uninitialised until the first request. The model starts them at 0.
- Floating-point computations are not modelled:
  - linearisation, PRNU, the precomputed tables, conversion factors and `_Compose`;
  - the ADC, TEC and DAC conversions;
  - the histogram and `AddToAverage`.
- AppHelper.ProcessAutoExposure: the floating-point extrapolation of the next exposure time (ConoscopeAppHelper.cpp:405-425) is the parameter `proposal`. The lock and clamp logic around it is modelled.
- AppHelper.GetExposureTime requires a positive granularity. With 0 or a negative value the `> 1` test at ConoscopeAppHelper.cpp:43 skips the remainder, and the loops at lines 65-79 then never end for a time below a nonzero minimum or above a nonzero maximum: each step leaves the time where it is or moves it away from the bound.
- AppHelper.GetExposureTime: the model takes the granularity that ConoscopeAppHelper.cpp:43 compares against to be the one passed in, as at every call site.
- PipelineCompute.RestrictToViewingAngle compares integer squared distances. The source compares `double` distances against a radius equal to the integer radius.
- PipelineCompute.RestrictToViewingAngle: the `#pragma omp parallel for` on its inner loop (PipelineCompute.cpp:1017-1025) is not modelled; the loop runs sequentially. With OpenMP on, the threads share `lCount` and increment it without synchronisation, so which pixel an iteration clears is a data race; the model clears the pixel of the sequential count.
- PipelineCompute.CalibratedDataSize is computed on unbounded integers. The source's 32-bit product overflows for radii above 23169, and that overflow is not modelled.
- ConoscopeConfig: the two floating-point items, `sensorTemperature` and `AELevelPercent`, are modelled as integers. JSON numbers are integers in the model.
- ConoscopeConfig: the file is a value (`FileState`). Opening, reading and writing it are not modelled.
- ConoscopeConfig: the `GetConfig` overloads are plain reads of `Config.record`. They have no members of their own.
- ConoscopeProcess.ListAverage requires a non-empty list, because the source divides by the list size.
- ConoscopeProcess.ListAverage: its elements are the source's `uint16_t` values.
- ConoscopeProcess.ListTrim requires `listSize >= 0`. For a negative size the source removes past the start of the list.
- ConoscopeProcess: `_GetFileName`, the image file reads and writes, the configuration-file commands and the capture commands are not part of this model. They are file I/O, or calls into the camera and pipeline.
- CoaXpressGrabber.Grabber.Start requires a positive acquisition count when none is running. For 0 or less, the source's do-while never ends.
- CoaXpressGrabber.FramePeriod: the branches compiled in by the standard-deviation option (CoaXpressGrabber.cpp:434) and `FIXED_FPS` (CoaXpressGrabber.cpp:439) are left out.
- ConoscopeResource: the logger and the callbacks are not modelled.
- I2cMessage: these are one-line calls of a modelled parameter or command call at a fixed index, and have no member of their own:
  - GetPresent, GetStatus, SetStatus and SetDefaultParameters;
  - GetArbitrationLostCount and SetArbitrationLostCount;
  - GetBusErrorCount and SetBusErrorCount.
  They are at CEXI2Message.cpp:11-15 and 163-203.
- CISGWMotor and CISGWSensor only forward to the message layer, and are not modelled.
- DLL and FFI shims, the C# wrapper and the dispatch boilerplate are not part of this model.
- The Pipeline's copy of imageConfiguration.h is the same logic as the modelled Shared one. The TestApp FrameBuffer is the Demo one without the clamp. Neither is modelled separately.
- AppWorker: a capture file shorter than the capture is not modelled. The capture reads are parameters.
- CaptureSequenceEmulate: after a failed read the buffers keep their previous contents, where the source leaves in them what `_ReadCapture` had read of the filters before the failure. After a cancel the crop takes every filter's capture from `capture`, where the source crops whatever the buffers of unread filters held.
- CameraCmvCxp: the grabber's register writes other than the fan speed, and the frame-grabber callbacks, are not modelled beyond the capture status they set.
- DemoCamera.Camera.constructor: the fields that the class declaration leaves to their defaults are constructor parameters.
- ConoscopeProcess.CleanFileName: when a '>' comes before the '<', ConoscopeProcess.cpp:3338-3345 gives `QString::replace` the length `end - start + 1`, which is 0 when the '>' stands just before the '<' and negative further before. The model searches for the '>' from the '<' on instead, the correction named in "## Findings". `PairStepAsWritten` reports the negative case as `NegativeLength` and does not follow it, since what Qt does with a negative length is not modelled.
- EldViewer.Viewer.CreateCurrentPalette: qEldViewer.cpp:223 resizes the palette to `max` entries, and lines 228-234 write every entry below `min` and from `min` to `max`. For an image with pixels the last write, entry `max`, lies one past the end; for an empty image `min` is 4096 and `max` 0, so the palette gets no entries and the first loop writes 4096. The model sizes the palette to every entry written (`PaletteLength`: `max + 1`, or 4096 for an empty image), so those writes land inside it.
- EldViewer.Viewer.CreateCurrentPalette: the level is computed exactly and truncated, where the source multiplies by the float `1024.0f / (max - min)`, so float rounding is not modelled. When `min` equals `max` the source divides by zero, and converting the resulting NaN to `int` is undefined; the model takes that one level as the parameter `flatLevel`.
- EldViewer.Viewer.DataSubSampling and EldViewer.Viewer.CreateGreyBitmap: qEldViewer.cpp:140, 163 and 394 open `#pragma omp parallel num_threads(4)` regions without `for`. With OpenMP on, each of four threads runs the whole loop on the shared indices. The model runs each loop once, as a build without OpenMP does.
- EldViewer: the false-colour path of `CreateBitmap` (qEldViewer.cpp:153-172) is not modelled. It reads each pixel's colour through the palette that `CreateCurrentPalette` builds, in the same OpenMP region form as the grey path.
- EldViewer.Viewer.constructor and BiWheel.Devices.constructor: the source leaves some fields uninitialised. These are the viewer's sizes and displayed minimum and maximum, and the wheel's target position and current wheel. The model starts them at 0.
- PowerSupply.CheckText and PowerSupply.RangeLookupText: Python's `str` of a float is the parameter `show`. It is not modelled.
- Common.KeyErrorText and PowerSupply.RangeLookupText: a string's `repr` is modelled as the string in single quotes. Python's repr switches to double quotes for a text that holds a single quote, and escapes control characters. The keys the model names hold neither.
- KtaRelay.StoreState: when `relay_states` is a dictionary, Python stores the state under the integer key. The string-keyed model leaves the configuration unchanged in that case.
- CameraSettingsList.CameraSettings.Get requires `0 <= index`. `QList::at` with a negative index is undefined.
- CoaXpressFrame.ImageFrame.StoreImage and CoaXpressFrame.ImageFrame.AppendImage require the buffer to hold the bytes or pixels they read. The source does not check this; a shorter buffer is read past its end.
- DefectCorrector.Corrector.Correct: the `#pragma omp parallel for num_threads(4)` of `_Correct` (PipelineDefectCorrector.cpp:60) is not modelled; the defects are corrected one after another, in list order.
- EquipmentFactory.CreateEquipment: the `print` of the caught exception (equipment_controller.py:90) is console output and is not modelled.
- PowerSupply.Lower folds only the ASCII letters A to Z. Python's `str.lower` also folds other Unicode letters; the model names in the table are ASCII.
- CoaXpressGrabber.Grabber.Start: `pop(timeout)` (CoaXpressGrabber.cpp:774-783) throws when no buffer arrives within 100 ms, and `Start` does not catch it. The model gives every pop a buffer, so that exception is not modelled.
- CameraCmvCxp.CameraModelOf: for a vendor other than CriticalLink and Adimec the source returns its uninitialised local `eModel` (cameraCmvCxp.cpp:334-352). The model returns `None` there, a defined value the source does not promise.
- CameraCmvCxp.Camera.Connect: the image-configuration updates that `_Connect` makes for the 50k and 8k models (cameraCmvCxp.cpp:220-253) are not modelled.
- DemoCamera.ColdReading, DemoCamera.NextStep and DemoCamera.Camera.GetHw compute `target - step * 0.1` on reals. The source's C `float` rounding is not modelled.
- AppWorker.Worker.CaptureSequenceEmulate and AppWorker.Worker.StoreCaptured: a reversed ROI passes the inside test at ConoscopeAppWorker.cpp:454-457, and line 479 then resizes each filter's buffer to the product of a negative width or height. A negative product becomes a huge `size_t` (a `length_error` or `bad_alloc`); with both reversed the product is positive and the crop reads pixels outside the ROI. The model reports it as `reversed`, answers ok as the source does, and keeps the buffers, with no exception and no overrun. The correction is the Findings row for lines 454-462.
- AppWorker.CropAllSpec and AppWorker.CropAll crop only an accepted ROI (`RoiAccepted`: inside the capture and in order). What a reversed ROI does to the buffers is the undefined behaviour of the line above, which they do not model.
- CameraCmvCxp.UpdateCaptureConfiguration is compiled only when `COAXPRESS_FRAME_AVERAGE` is not defined (cameraCmvCxp.h:94, cameraCmvCxp.cpp:838-851). CoaXpressConfiguration.h:7 defines it, so the shipped build runs the base class's default, `BuiltCaptureConfiguration`. The body of that default, in the library's camera.cpp, is not part of this model; it is taken to keep both counts, as the demo camera's default at conoscope/ConoscopeDemo/Camera/camera.cpp:157-162 does.

## Findings

| source | as written | input that shows it | evidently intended | confidence | as-written member | corrected member |
|---|---|---|---|---|---|---|
| conoscope/ConoscopeLib/Conoscope/Conoscope.cpp:570 | the ND check is `eNd > Nd_Invalid` while the filter and iris checks use `>=`, so `Nd_Invalid` is accepted | `CmdSetup` with `eNd = Nd_Invalid` | `Nd_Invalid` refused with InvalidParameter, like the other two | not executed; high | ConoscopeSm.NdInvalidAccepted | ConoscopeSm.SetupArgs |
| conoscope/ConoscopeLib/Conoscope/TempMonitoring.cpp:292-311 | `CmdReset` returns an uninitialised error when the machine is not processing | a reset from Idle with the status Locked | the reset returns Ok | not executed; high | TempMonitor.ResetCanReportFailure | TempMonitor.Reset |
| conoscope/ConoscopeLib/ConoscopeApp/ConoscopeApp.cpp:1082-1095 | the worker's configuration is copied before the exposure is clamped into the auto-exposure bounds | exposure 990000 µs with bounds 10..985000 | the worker receives the clamped exposure | not executed; medium | ConoscopeAppSm.ClampDoesNotReachWorker | ConoscopeAppSm.WorkerExposureInside |
| conoscope/ConoscopeLib/ConoscopeApp/ConoscopeApp.cpp:726-740 | `CmdExportProcessed` starts from Ok, so outside CaptureDone it reports success without exporting; its raw-buffer twin at lines 696-711 starts from InvalidState | a processed-buffer export requested in Ready | InvalidState outside CaptureDone | not executed; medium | ConoscopeAppSm.ExportProcessedBufferOkOutsideCapture | ConoscopeAppSm.ExportProcessedBufferResult |
| conoscope/ConoscopePipeline/Pipeline/PipelineDefectCorrector.cpp:296,307-316 | `isDefective` compares a neighbour's buffer coordinates with the sensor-coordinate defect list | defects (2,0) and (3,0) in a window offset by 2 columns: the listed neighbour (3,0) is averaged in | the neighbour is looked up in sensor coordinates | not executed; high | DefectCorrector.ListedNeighbourCountedAsWritten | DefectCorrector.ListedNeighbourInvalid |
| conoscope/ConoscopePipeline/Pipeline/PipelineCompute.cpp:1388 | the corner check compares the corner height with the current corner height instead of the image height | a 1000 x 1000 capture: the 70-pixel bias corners are dropped | corners are kept while two fit in the image height | not executed; medium | PipelineCompute.CornerHeightDroppedAsWritten | PipelineCompute.NextCornersFit |
| conoscope/ConoscopePipeline/Pipeline/PipelineCompute.cpp:1361-1366,1401-1405 | the typical-size test compares against the current configuration instead of the reference one | two 100 x 100 captures in a row: the second restores the 3584 x 2528 reference layout | the 100 x 100 layout is kept | not executed; medium | PipelineCompute.RepeatedSizeRestoresReferenceAsWritten | PipelineCompute.TypicalRestoresReference |
| conoscope/ConoscopeLib/Conoscope/ConoscopeProcess.cpp:3337-3351 | the `<...>` removal searches for '>' from the start of the name, so a '>' just before the '<' gives a zero-length replace, the name stays unchanged and the loop goes round forever | the name "a><b", whose zero-length replace removes nothing | the '>' searched from the '<' on, so the loop ends | not executed; high | ConoscopeProcess.CleanLoopStuckAsWritten | ConoscopeProcess.CleanFileName |
| conoscope/ConoscopeLib/Conoscope/ConoscopeConfig.cpp:357,447 | `_Load` reads `AEMaxNbPixel` under the key `captureSequenceMaxNbPixel`, which `_Save` never writes | any saved file: the value reads back as 0 | the key `_Save` writes, so the value survives a reload | not executed; high | ConoscopeConfig.MaxNbPixelLostAsWritten | ConoscopeConfig.SettingsIRoundTrip |
| conoscope/ConoscopeLib/Conoscope/ConoscopeConfig.cpp:314-331 | the height cut to fit the sensor, `6004 - Y`, is not aligned to 4 again | height 3200 at row 2902 gives 3102 | the fitted height stays a multiple of 4 | not executed; medium | ConoscopeConfig.AreaHeightMisalignedAsWritten | ConoscopeConfig.FitArea |
| conoscope/ConoscopeTestApp/Stream/qEldViewer.cpp:223,228-234 | the palette is resized to `max` entries while the second loop writes entries up to and including `max` | any minimum and maximum with 0 <= min <= max | a palette with room for each written entry | not executed; high | EldViewer.PaletteOverrunAsWritten | EldViewer.PaletteLength |
| conoscope/ConoscopeLib/ConoscopeApp/ConoscopeAppWorker.cpp:471-481 | the staging buffer is sized for the crop but the copy writes the whole capture into it | a 100 x 100 capture cropped to 10 x 10: 10000 pixels into room for 100 | the copy writes only the cropped pixels | not executed; high | AppWorker.StagingCopyOverrunsAsWritten | AppWorker.CropAll |
| conoscope/ConoscopeLib/ConoscopeApp/ConoscopeAppWorker.cpp:454-462 | the ROI test only checks that each edge lies inside the capture, not that left <= right and top <= bottom, so a reversed ROI is accepted and its crop size is negative | ROI left 20, right 10 (top 0, bottom 100) inside a 0..100 x 0..100 capture: width -10 | a reversed ROI refused, so the crop size is never negative | not executed; high | AppWorker.ReversedRoiPassesAsWritten | AppWorker.AcceptedRoiFits |
| conoscope/ConoscopeDemo/Camera/camera.cpp:40-56 | `Register` keeps a board serial whole only when the split gives 0 parts, which `QString::split` never does | the board serial "B1234": one part, refused | a serial without '_' kept whole | not executed; medium | DemoCamera.PlainSerialRefusedAsWritten | DemoCamera.Registered |
| conoscope/ConoscopeLib/Conoscope/Conoscope.cpp:164-182 | in debug mode `ChangeState` hands its `void*` parameter to `CmdSetupDebug` as a `SetupConfig_t*`, but every transition except setup, measure and export-processed from CaptureDone passes `nullptr`, and measure passes a `MeasureConfigWithCropFactor_t` | debug mode on and the thread started (`ChangeState(Idle)` from `run()`), or `CmdOpen` from Idle | only a setup configuration is copied into the process; other transitions leave it as it is | not executed; high | ConoscopeSm.DebugExportFromIdleDereferencesNullAsWritten | ConoscopeSm.DebugSetupOnlyFromSetup |
