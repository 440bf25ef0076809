/*
 * EquipmentFactory: the registry that maps an equipment type name to the
 * instrument class to build and the constructor arguments taken from a
 * configuration dictionary.
 *
 * Whether `import PySpin` succeeded when the camera module was loaded is the
 * parameter `pySpinAvailable`: without it the camera constructor raises
 * `EquipmentError`, which the factory turns into `None`.
 */
module EquipmentFactory {
  import opened Common

  /** The constructor call the factory makes, with its arguments. */
  datatype Construction =
    | AgilentDmm(visaAddress: Value, name: Value)
    | AgilentPowerSupply(visaAddress: Value, model: string, name: Value)
    | KtaRelay(comPort: Value, baudRate: Value, name: Value)
    | Camera(cameraIndex: Value, name: Value)

  /** `create_equipment`: an instance, `None`, or the `ValueError` it raises. */
  datatype Created = Instance(c: Construction) | NoInstance | UnknownType(message: string)

  /** The keys of `EQUIPMENT_TYPES`, in their declaration order. */
  function AvailableTypes(): (r: seq<string>)
    ensures |r| == 4
    ensures forall i, j :: 0 <= i < j < |r| ==> r[i] != r[j]
  {
    ["agilent_dmm", "agilent_power_supply", "kta_relay", "camera"]
  }

  /** `config.get(key, default)`. */
  function Get(config: Dict, key: string, default: Value): Value
  {
    if key in config then config[key] else default
  }

  function CreateEquipment(equipmentType: string, config: Dict, pySpinAvailable: bool): Created
  {
    if equipmentType !in AvailableTypes() then
      UnknownType("Unknown equipment type: " + equipmentType)
    else if equipmentType == "agilent_dmm" then
      if "visa_address" !in config then NoInstance
      else Instance(AgilentDmm(config["visa_address"], Get(config, "name", VStr("Agilent DMM"))))
    else if equipmentType == "agilent_power_supply" then
      if "visa_address" !in config then NoInstance
      else
        // the constructor lower-cases the model: anything but a string raises, giving None
        var model := Get(config, "model", VStr("e3640a"));
        if !model.VStr? then NoInstance
        else Instance(AgilentPowerSupply(config["visa_address"], model.s,
                                         Get(config, "name", VStr("Agilent Power Supply"))))
    else if equipmentType == "kta_relay" then
      if "com_port" !in config then NoInstance
      else Instance(KtaRelay(config["com_port"], Get(config, "baud_rate", VInt(9600)),
                             Get(config, "name", VStr("KTA Relay Controller"))))
    else if !pySpinAvailable then NoInstance
    else Instance(Camera(Get(config, "camera_index", VInt(0)), Get(config, "name", VStr("FLIR Camera"))))
  }

  /** A type name outside the registry raises; every registered name does not. */
  lemma UnknownTypeRaises(equipmentType: string, config: Dict, pySpinAvailable: bool)
    ensures CreateEquipment(equipmentType, config, pySpinAvailable).UnknownType? <==> equipmentType !in AvailableTypes()
  {
  }

  /** The registered names and the names the factory builds are the same. */
  lemma RegistryMatchesBuilds(equipmentType: string, config: Dict, pySpinAvailable: bool)
    requires equipmentType in AvailableTypes()
    ensures CreateEquipment(equipmentType, config, pySpinAvailable).Instance? ==>
      match CreateEquipment(equipmentType, config, pySpinAvailable).c
      case AgilentDmm(_, _) => equipmentType == "agilent_dmm"
      case AgilentPowerSupply(_, _, _) => equipmentType == "agilent_power_supply"
      case KtaRelay(_, _, _) => equipmentType == "kta_relay"
      case Camera(_, _) => equipmentType == "camera"
  {
  }

  /** A missing required key yields `None` instead of an instance. */
  lemma MissingRequiredKeyGivesNone(equipmentType: string, config: Dict, pySpinAvailable: bool)
    ensures equipmentType in {"agilent_dmm", "agilent_power_supply"} && "visa_address" !in config ==>
      CreateEquipment(equipmentType, config, pySpinAvailable) == NoInstance
    ensures equipmentType == "kta_relay" && "com_port" !in config ==>
      CreateEquipment(equipmentType, config, pySpinAvailable) == NoInstance
  {
  }

  /** The optional keys take their defaults when absent. */
  lemma OptionalKeysDefault(config: Dict)
    requires "model" !in config && "baud_rate" !in config && "camera_index" !in config && "name" !in config
    requires "visa_address" in config && "com_port" in config
    ensures CreateEquipment("agilent_power_supply", config, true) ==
      Instance(AgilentPowerSupply(config["visa_address"], "e3640a", VStr("Agilent Power Supply")))
    ensures CreateEquipment("kta_relay", config, true) ==
      Instance(KtaRelay(config["com_port"], VInt(9600), VStr("KTA Relay Controller")))
    ensures CreateEquipment("camera", config, true) == Instance(Camera(VInt(0), VStr("FLIR Camera")))
    ensures CreateEquipment("agilent_dmm", config, true) == Instance(AgilentDmm(config["visa_address"], VStr("Agilent DMM")))
  {
  }

  /** The camera needs no key: it is built exactly when PySpin is available, and `None` is returned otherwise. */
  lemma CameraBuiltIffSdk(config: Dict, pySpinAvailable: bool)
    ensures CreateEquipment("camera", config, pySpinAvailable).Instance? <==> pySpinAvailable
    ensures !pySpinAvailable ==> CreateEquipment("camera", config, pySpinAvailable) == NoInstance
  {
  }

  /** The other three types do not depend on PySpin. */
  lemma OthersIgnoreSdk(equipmentType: string, config: Dict)
    requires equipmentType != "camera"
    ensures CreateEquipment(equipmentType, config, true) == CreateEquipment(equipmentType, config, false)
  {
  }
}
