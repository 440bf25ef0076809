/*
 * ConoscopeResource: the string tables of the library's enumerations and
 * their reverse tables, with the lookups `ToString` and `Convert`.
 */
module ConoscopeResource {
  import C = Common
  import T = ConoscopeTypes
  import Q = QtText

  datatype ResourceType = ResourceFilter | ResourceNd | ResourceIris

  /** The text of each enumerator, keyed by its integer value. */
  const FilterNames: map<int, string> :=
    map[0 := "BK7", 1 := "Mirror", 2 := "X", 3 := "Xz", 4 := "Ya", 5 := "Yb", 6 := "Z", 7 := "IRCut", 8 := "Invalid"]
  const NdNames: map<int, string> := map[0 := "0", 1 := "1", 2 := "2", 3 := "3", 4 := "4", 5 := "Invalid"]
  const IrisNames: map<int, string> := map[0 := "2", 1 := "3", 2 := "4", 3 := "5", 4 := "Invalid"]
  const WheelStateNames: map<int, string> := map[0 := "Idle", 1 := "Success", 2 := "Operating", 3 := "Error"]
  const TemperatureNames: map<int, string> :=
    map[0 := "NotStarted", 1 := "Processing", 2 := "Locked", 3 := "Aborted", 4 := "Error"]

  /** The integer keys of those tables in `std::map` order. */
  const FilterKeys: seq<int> := [0, 1, 2, 3, 4, 5, 6, 7, 8]
  const NdKeys: seq<int> := [0, 1, 2, 3, 4, 5]
  const IrisKeys: seq<int> := [0, 1, 2, 3, 4]

  /** No two filters share a text, so the reverse filter table loses nothing. */
  lemma FilterTableInjective()
    ensures C.Listed(FilterKeys, FilterNames) && C.InjectiveOn(FilterKeys, FilterNames)
  {
    forall i, j | 0 <= i < j < |FilterKeys|
      ensures FilterNames[FilterKeys[i]] != FilterNames[FilterKeys[j]]
    {
      var a, b := FilterNames[i], FilterNames[j];
      assert |a| != |b| || a[0] != b[0] || a[|a| - 1] != b[|b| - 1];
    }
  }

  /** No two ND or iris values share a text. */
  lemma NdIrisTablesInjective()
    ensures C.Listed(NdKeys, NdNames) && C.InjectiveOn(NdKeys, NdNames)
    ensures C.Listed(IrisKeys, IrisNames) && C.InjectiveOn(IrisKeys, IrisNames)
  {
    forall i, j | 0 <= i < j < |NdKeys|
      ensures NdNames[NdKeys[i]] != NdNames[NdKeys[j]]
    {
      var a, b := NdNames[i], NdNames[j];
      assert |a| != |b| || a[0] != b[0];
    }
    forall i, j | 0 <= i < j < |IrisKeys|
      ensures IrisNames[IrisKeys[i]] != IrisNames[IrisKeys[j]]
    {
      var a, b := IrisNames[i], IrisNames[j];
      assert |a| != |b| || a[0] != b[0];
    }
  }

  /** No ND or iris text holds a dot. */
  lemma NdIrisNamesDotless()
    ensures forall k :: k in NdNames ==> '.' !in NdNames[k]
    ensures forall k :: k in IrisNames ==> '.' !in IrisNames[k]
  {
  }

  /** `_ToString`: the text of a mapped value, its dots removed on request; "ERROR" for an unmapped value. */
  function ToText(names: map<int, string>, value: int, replaceDot: bool): (text: string)
    ensures value !in names ==> text == "ERROR"
    ensures value in names && !replaceDot ==> text == names[value]
    ensures replaceDot ==> '.' !in text
  {
    if value in names then
      if replaceDot then
        Q.RemoveChar(names[value], '.');
        Q.ReplaceAll(names[value], ".", "")
      else names[value]
    else "ERROR"
  }

  /** `_ToInt`: the value of a known text, -1 otherwise. */
  function ToInt(codes: map<string, int>, text: string): (value: int)
    ensures text in codes ==> value == codes[text]
    ensures text !in codes ==> value == -1
  {
    if text in codes then codes[text] else -1
  }

  class Resource {
    var filterNames: map<int, string>
    var ndNames: map<int, string>
    var irisNames: map<int, string>
    var wheelStateNames: map<int, string>
    var temperatureNames: map<int, string>
    var filterCodes: map<string, int>
    var ndCodes: map<string, int>
    var irisCodes: map<string, int>

    ghost predicate Valid()
      reads this
    {
      && filterNames == FilterNames && ndNames == NdNames && irisNames == IrisNames
      && wheelStateNames == WheelStateNames && temperatureNames == TemperatureNames
      && filterCodes == C.Inverted(FilterKeys, FilterNames)
      && ndCodes == C.Inverted(NdKeys, NdNames)
      && irisCodes == C.Inverted(IrisKeys, IrisNames)
    }

    /** The constructor: the tables filled, the reverse ones by loops over the forward ones. */
    constructor ()
      ensures Valid()
    {
      FilterTableInjective();
      NdIrisTablesInjective();
      filterNames := FilterNames;
      ndNames := NdNames;
      irisNames := IrisNames;
      wheelStateNames := WheelStateNames;
      temperatureNames := TemperatureNames;
      var filters := C.Invert(FilterKeys, FilterNames);
      var nds := C.Invert(NdKeys, NdNames);
      var irises := C.Invert(IrisKeys, IrisNames);
      filterCodes, ndCodes, irisCodes := filters, nds, irises;
    }

    function FilterText(f: T.Filter): string
      reads this
    {
      ToText(filterNames, T.FilterCode(f), false)
    }

    function NdText(nd: T.Nd, replaceDot: bool): string
      reads this
    {
      ToText(ndNames, T.NdCode(nd), replaceDot)
    }

    function IrisText(i: T.Iris, replaceDot: bool): string
      reads this
    {
      ToText(irisNames, T.IrisCode(i), replaceDot)
    }

    function WheelStateText(s: T.WheelState): string
      reads this
    {
      ToText(wheelStateNames, T.WheelStateCode(s), false)
    }

    function TemperatureText(s: T.TemperatureMonitoringState): string
      reads this
    {
      ToText(temperatureNames, T.TemperatureCode(s), false)
    }

    /** `Convert`: the integer value of a text of the given table. */
    function Convert(kind: ResourceType, text: string): int
      reads this
    {
      match kind
      case ResourceFilter => ToInt(filterCodes, text)
      case ResourceNd => ToInt(ndCodes, text)
      case ResourceIris => ToInt(irisCodes, text)
    }

    /** Converting the text of any filter gives the filter's value back. */
    lemma ConvertFilterText(f: T.Filter)
      requires Valid()
      ensures Convert(ResourceFilter, FilterText(f)) == T.FilterCode(f)
    {
      FilterTableInjective();
      C.InvertedInverts(FilterKeys, FilterNames);
      assert FilterKeys[T.FilterCode(f)] == T.FilterCode(f);
    }

    /** Converting the text of any ND, dots removed or not, gives its value back. */
    lemma ConvertNdText(nd: T.Nd, replaceDot: bool)
      requires Valid()
      ensures Convert(ResourceNd, NdText(nd, replaceDot)) == T.NdCode(nd)
    {
      NdIrisTablesInjective();
      C.InvertedInverts(NdKeys, NdNames);
      var code := T.NdCode(nd);
      assert NdKeys[code] == code;
      if replaceDot {
        NdIrisNamesDotless();
        var n := NdNames[code];
        Q.ContainsChar(n, '.');
        Q.ReplaceAbsent(n, ".", "");
      }
    }

    /** Converting the text of any iris, dots removed or not, gives its value back. */
    lemma ConvertIrisText(i: T.Iris, replaceDot: bool)
      requires Valid()
      ensures Convert(ResourceIris, IrisText(i, replaceDot)) == T.IrisCode(i)
    {
      NdIrisTablesInjective();
      C.InvertedInverts(IrisKeys, IrisNames);
      var code := T.IrisCode(i);
      assert IrisKeys[code] == code;
      if replaceDot {
        NdIrisNamesDotless();
        var n := IrisNames[code];
        Q.ContainsChar(n, '.');
        Q.ReplaceAbsent(n, ".", "");
      }
    }

    /** A text that names no value converts to -1, in every table. */
    lemma ConvertUnknown(kind: ResourceType, text: string)
      requires Valid()
      requires forall k :: k in FilterNames ==> FilterNames[k] != text
      requires forall k :: k in NdNames ==> NdNames[k] != text
      requires forall k :: k in IrisNames ==> IrisNames[k] != text
      ensures Convert(kind, text) == -1
    {
      FilterTableInjective();
      NdIrisTablesInjective();
      C.InvertedInverts(FilterKeys, FilterNames);
      C.InvertedInverts(NdKeys, NdNames);
      C.InvertedInverts(IrisKeys, IrisNames);
    }
  }
}
