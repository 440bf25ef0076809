/*
 * LogMask (ConoscopeDemo/AppController/appConfigTypes.cpp): the log
 * categories the demo application prints. The list is kept in the
 * application's JSON configuration by name; "any" and "error" messages are
 * always printed.
 */
module LogMasks {
  import C = Common

  /** `LogMask_t`. */
  datatype Mask = Any | State | StateMachine | Worker | Error

  /** The masks with a name in the configuration (lines 5-8). */
  predicate Named(m: Mask)
  {
    m == State || m == StateMachine || m == Worker
  }

  /** `mLogMaskToStringMap` read with `operator[]`: a mask without a name reads as "". */
  function MaskName(m: Mask): (name: string)
    ensures name == "" <==> !Named(m)
  {
    match m
    case State => "State"
    case StateMachine => "StateMachine"
    case Worker => "Worker"
    case _ => ""
  }

  /** `mLogMaskToStringRevMap` (lines 10-13). */
  function MaskOfName(name: string): (m: C.Option<Mask>)
    ensures m.Some? ==> Named(m.value) && MaskName(m.value) == name
  {
    if name == "State" then C.Some(State)
    else if name == "StateMachine" then C.Some(StateMachine)
    else if name == "Worker" then C.Some(Worker)
    else C.None
  }

  /** The name map and the reverse map agree. */
  lemma NameRoundTrip(m: Mask)
    ensures Named(m) ==> MaskOfName(MaskName(m)) == C.Some(m)
    ensures !Named(m) ==> MaskOfName(MaskName(m)) == C.None
  {
  }

  /** An item of a JSON array; `toString` of anything but a string is "". */
  datatype JsonItem = JText(s: string) | JOther

  function ItemText(item: JsonItem): string
  {
    if item.JText? then item.s else ""
  }

  /** The masks the JSON constructor keeps: the named items, in order. */
  function Decoded(items: seq<JsonItem>): (masks: seq<Mask>)
    ensures forall i :: 0 <= i < |masks| ==> Named(masks[i])
    ensures |masks| <= |items|
  {
    if items == [] then []
    else
      var last := MaskOfName(ItemText(items[|items| - 1]));
      Decoded(items[..|items| - 1]) + (if last.Some? then [last.value] else [])
  }

  /** The array `GetJson` writes: one name per mask. */
  function Encoded(masks: seq<Mask>): (items: seq<JsonItem>)
    ensures |items| == |masks|
    ensures forall i :: 0 <= i < |masks| ==> items[i] == JText(MaskName(masks[i]))
  {
    if masks == [] then [] else Encoded(masks[..|masks| - 1]) + [JText(MaskName(masks[|masks| - 1]))]
  }

  /** The named masks of a list, in order. */
  function NamedOnly(masks: seq<Mask>): seq<Mask>
  {
    if masks == [] then []
    else NamedOnly(masks[..|masks| - 1]) + (if Named(masks[|masks| - 1]) then [masks[|masks| - 1]] else [])
  }

  /** Writing masks and reading them back keeps the named ones, in order; "any" and "error" are lost. */
  lemma {:induction false} DecodeEncode(masks: seq<Mask>)
    ensures Decoded(Encoded(masks)) == NamedOnly(masks)
  {
    if masks != [] {
      var front := masks[..|masks| - 1];
      assert Encoded(masks)[..|masks| - 1] == Encoded(front);
      DecodeEncode(front);
      NameRoundTrip(masks[|masks| - 1]);
    }
  }

  /** A list of named masks is its own named part. */
  lemma {:induction false} NamedOnlyOfNamed(masks: seq<Mask>)
    requires forall i :: 0 <= i < |masks| ==> Named(masks[i])
    ensures NamedOnly(masks) == masks
  {
    if masks != [] {
      NamedOnlyOfNamed(masks[..|masks| - 1]);
    }
  }

  /** A list of named masks survives `GetJson` followed by the JSON constructor. */
  lemma NamedMasksRoundTrip(masks: seq<Mask>)
    requires forall i :: 0 <= i < |masks| ==> Named(masks[i])
    ensures Decoded(Encoded(masks)) == masks
  {
    DecodeEncode(masks);
    NamedOnlyOfNamed(masks);
  }

  /** An item without a known name adds nothing. */
  lemma UnknownSkipped(items: seq<JsonItem>, item: JsonItem)
    requires MaskOfName(ItemText(item)).None?
    ensures Decoded(items + [item]) == Decoded(items)
  {
    assert (items + [item])[..|items|] == items;
  }

  /** `LogMask`. */
  class LogMask {
    var masks: seq<Mask>

    /** `LogMask()`. */
    constructor ()
      ensures masks == []
    {
      masks := [];
    }

    /** `LogMask(QList<LogMask_t>)` (lines 20-23). */
    constructor FromList(input: seq<Mask>)
      ensures masks == input
    {
      masks := input;
    }

    /** `LogMask(QJsonArray)` (lines 25-39): the items with a known name, in order. */
    constructor FromJson(input: seq<JsonItem>)
      ensures masks == Decoded(input)
    {
      masks := [];
      new;
      var index := 0;
      while index < |input|
        modifies this
        invariant 0 <= index <= |input|
        invariant masks == Decoded(input[..index])
      {
        var key := ItemText(input[index]);
        assert input[..index + 1][..index] == input[..index];
        var found := MaskOfName(key);
        if found.Some? {
          masks := masks + [found.value];
        }
        index := index + 1;
      }
      assert input[..|input|] == input;
    }

    /** `GetJson` (lines 41-52): one name per mask, "" for a mask without one. */
    method GetJson() returns (items: seq<JsonItem>)
      ensures items == Encoded(masks)
    {
      items := [];
      var index := 0;
      while index < |masks|
        invariant 0 <= index <= |masks|
        invariant items == Encoded(masks[..index])
      {
        assert masks[..index + 1][..index] == masks[..index];
        items := items + [JText(MaskName(masks[index]))];
        index := index + 1;
      }
      assert masks[..|masks|] == masks;
    }

    /** `IsPresent` (lines 54-64): "any" and "error" are always on; the others when listed. */
    predicate IsPresent(mask: Mask)
      reads this
      ensures IsPresent(mask) <==> mask == Any || mask == Error || mask in masks
    {
      if mask != Any && mask != Error then mask in masks else true
    }
  }
}
