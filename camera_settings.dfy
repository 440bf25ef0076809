/*
 * CameraSettings (ConoscopeTestApp/Tools/toolTypes.cpp): the list of named
 * camera settings the test application shows, each with a type, a name,
 * a value and a unit.
 */
module CameraSettingsList {
  import C = Common

  /** `CameraSettingItem`; the value is a `float`. */
  datatype Item = Item(kind: string, name: string, value: real, unit: string)

  /** Whether some item carries that name. */
  predicate HasName(items: seq<Item>, name: string)
  {
    exists i :: 0 <= i < |items| && items[i].name == name
  }

  /** Index `i` holds the first item with that name. */
  predicate FirstWithName(items: seq<Item>, name: string, i: int)
  {
    0 <= i < |items| && items[i].name == name && forall j :: 0 <= j < i ==> items[j].name != name
  }

  class CameraSettings {
    var settings: seq<Item>

    /** The constructor (lines 11-14): an empty list. */
    constructor ()
      ensures settings == []
    {
      settings := [];
    }

    /** `Length`. */
    function Length(): (n: int)
      reads this
      ensures n == |settings|
    {
      |settings|
    }

    /** `Clear` (lines 30-33). */
    method Clear()
      modifies this
      ensures settings == [] && Length() == 0
    {
      settings := [];
    }

    /** `Append` (lines 35-38): the item goes last. */
    method Append(setting: Item)
      modifies this
      ensures settings == old(settings) + [setting] && Length() == old(Length()) + 1
    {
      settings := settings + [setting];
    }

    /**
     * `Get` (lines 59-67): the item at the index, or nothing past the end.
     * The source returns the address of the item inside the list; here the item itself is returned.
     */
    method Get(index: int) returns (item: C.Option<Item>)
      requires 0 <= index
      ensures index < |settings| <==> item.Some?
      ensures index < |settings| ==> item.value == settings[index]
    {
      if index < |settings| {
        item := C.Some(settings[index]);
      } else {
        item := C.None;
      }
    }

    /** `GetValue` (lines 40-57): the value of the first item with that name, or -1.0. */
    method GetValue(name: string) returns (output: real)
      ensures !HasName(settings, name) ==> output == -1.0
      ensures HasName(settings, name) ==> exists i :: FirstWithName(settings, name, i) && output == settings[i].value
    {
      output := -1.0;
      var index := 0;
      var found := -1;
      while index < |settings|
        invariant 0 <= index <= |settings| + 1
        invariant found == -1 ==> output == -1.0 && forall j :: 0 <= j < index && j < |settings| ==> settings[j].name != name
        invariant found != -1 ==> FirstWithName(settings, name, found) && output == settings[found].value && index == |settings| + 1
        decreases |settings| + 1 - index
      {
        if settings[index].name == name {
          output := settings[index].value;
          found := index;
          index := |settings|;
        }
        index := index + 1;
      }
      if found == -1 {
        assert !HasName(settings, name);
      }
    }

    /**
     * `Copy` (lines 16-28): the list becomes the other's items, in order.
     * The argument is passed by value, so copying a list onto itself keeps it.
     */
    method Copy(other: CameraSettings)
      modifies this
      ensures settings == old(other.settings)
    {
      var items := other.settings;
      settings := [];
      var length := |items|;
      var index := 0;
      while index < length
        invariant 0 <= index <= length
        invariant settings == items[..index]
      {
        assert items[..index + 1] == items[..index] + [items[index]];
        settings := settings + [items[index]];
        index := index + 1;
      }
    }
  }
}
