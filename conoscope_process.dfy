/*
 * ConoscopeProcess: the wheel position tables of the hardware layer and the
 * reading of the wheel status, the configuration files a processing needs,
 * the filter check of a measurement, the export file-name template and its
 * clean-up, and the small list helpers of the average analysis.
 */
module ConoscopeProcess {
  import C = Common
  import T = ConoscopeTypes
  import Q = QtText

  // ---------------------------------------------------------------- wheels

  /** The motor status codes a wheel reports (`WheelStatus_t`). */
  const StatusIdle: int := 0
  const StatusSuccess: int := 0x10
  const StatusOperating: int := 0x20
  const StatusError: int := 0x40
  const StatusBits: int := 0x70

  /** The highest valid wheel position. */
  const WheelMaxValue: int := 8

  datatype WheelType = WheelTypeFilter | WheelTypeNd

  /** The wheel position of every ND and every filter. */
  const NdPositions: map<T.Nd, int> := map[T.Nd0 := 8, T.Nd1 := 1, T.Nd2 := 3, T.Nd3 := 5, T.Nd4 := 7]
  const FilterPositions: map<T.Filter, int> :=
    map[T.BK7 := 2, T.Mirror := 1, T.X := 8, T.Xz := 5, T.Ya := 7, T.Yb := 6, T.Z := 4, T.IrCut := 3]

  /** The keys of those maps in `std::map` order. */
  const NdKeys: seq<T.Nd> := [T.Nd0, T.Nd1, T.Nd2, T.Nd3, T.Nd4]
  const FilterKeys: seq<T.Filter> := [T.BK7, T.Mirror, T.X, T.Xz, T.Ya, T.Yb, T.Z, T.IrCut]

  lemma PositionTablesInjective()
    ensures C.Listed(NdKeys, NdPositions) && C.InjectiveOn(NdKeys, NdPositions)
    ensures C.Listed(FilterKeys, FilterPositions) && C.InjectiveOn(FilterKeys, FilterPositions)
  {
    NdTableInjective();
    FilterTableInjective();
  }

  /** No two NDs share a wheel position. */
  lemma NdTableInjective()
    ensures C.Listed(NdKeys, NdPositions) && C.InjectiveOn(NdKeys, NdPositions)
  {
  }

  /** No two filters share a wheel position. */
  lemma FilterTableInjective()
    ensures C.Listed(FilterKeys, FilterPositions) && C.InjectiveOn(FilterKeys, FilterPositions)
  {
    // positions[i] is the position of FilterKeys[i]; slot[p] is the index at position p
    var positions := [2, 1, 8, 5, 7, 6, 4, 3];
    var slot := [0, 1, 0, 7, 6, 3, 5, 4, 2];
    assert forall i :: 0 <= i < |FilterKeys| ==> T.FilterCode(FilterKeys[i]) == i;
    assert forall i :: 0 <= i < |FilterKeys| ==>
      FilterKeys[i] in FilterPositions && FilterPositions[FilterKeys[i]] == positions[i];
    assert forall i :: 0 <= i < |positions| ==> 0 <= positions[i] < |slot| && slot[positions[i]] == i;
  }

  /**
   * The reverse tables built by `_ConfigureHal` send every position back to
   * its ND or filter, and hold only the positions in use.
   */
  lemma RevertMapsInvert()
    ensures forall nd :: nd in NdPositions ==>
      NdPositions[nd] in C.Inverted(NdKeys, NdPositions) && C.Inverted(NdKeys, NdPositions)[NdPositions[nd]] == nd
    ensures forall f :: f in FilterPositions ==>
      FilterPositions[f] in C.Inverted(FilterKeys, FilterPositions) && C.Inverted(FilterKeys, FilterPositions)[FilterPositions[f]] == f
    ensures forall p :: p in C.Inverted(NdKeys, NdPositions) ==>
      exists nd :: nd in NdPositions && NdPositions[nd] == p
    ensures forall p :: p in C.Inverted(FilterKeys, FilterPositions) ==>
      exists f :: f in FilterPositions && FilterPositions[f] == p
  {
    PositionTablesInjective();
    C.InvertedInverts(NdKeys, NdPositions);
    C.InvertedInverts(FilterKeys, FilterPositions);
    forall nd | nd in NdPositions
      ensures NdPositions[nd] in C.Inverted(NdKeys, NdPositions) && C.Inverted(NdKeys, NdPositions)[NdPositions[nd]] == nd
    {
      assert nd == NdKeys[T.NdCode(nd)];
    }
    forall f | f in FilterPositions
      ensures FilterPositions[f] in C.Inverted(FilterKeys, FilterPositions)
           && C.Inverted(FilterKeys, FilterPositions)[FilterPositions[f]] == f
    {
      assert f == FilterKeys[T.FilterCode(f)];
    }
  }

  /** What `_GetWheelStatus` reports: the status and the ND and filter it read. */
  datatype WheelReading = WheelReading(status: int, nd: T.Nd, filter: T.Filter)

  /** The hardware tables of a `ConoscopeProcess`. */
  class Hal {
    var ndWheelMap: map<T.Nd, int>
    var ndWheelRevertMap: map<int, T.Nd>
    var filterWheelMap: map<T.Filter, int>
    var filterWheelRevertMap: map<int, T.Filter>
    var wheelStatusMap: map<int, T.WheelState>
    var wheelTypeIndexMap: map<WheelType, int>

    ghost predicate Configured()
      reads this
    {
      && ndWheelMap == NdPositions && ndWheelRevertMap == C.Inverted(NdKeys, NdPositions)
      && filterWheelMap == FilterPositions && filterWheelRevertMap == C.Inverted(FilterKeys, FilterPositions)
      && wheelStatusMap == map[StatusIdle := T.WheelIdle, StatusSuccess := T.WheelSuccess,
                               StatusOperating := T.WheelOperating, StatusError := T.WheelError, StatusBits := T.WheelError]
      && wheelTypeIndexMap == map[WheelTypeFilter := 1, WheelTypeNd := 0]
    }

    /** `_ConfigureHal`, run from the constructor: the tables filled, the reverse ones by a loop over the forward ones. */
    constructor ()
      ensures Configured()
    {
      ndWheelMap := map[T.Nd0 := 8, T.Nd1 := 1, T.Nd2 := 3, T.Nd3 := 5, T.Nd4 := 7];
      filterWheelMap := map[T.BK7 := 2, T.Mirror := 1, T.X := 8, T.Xz := 5, T.Ya := 7, T.Yb := 6, T.Z := 4, T.IrCut := 3];
      wheelStatusMap := map[StatusIdle := T.WheelIdle, StatusSuccess := T.WheelSuccess,
                            StatusOperating := T.WheelOperating, StatusError := T.WheelError, StatusBits := T.WheelError];
      wheelTypeIndexMap := map[WheelTypeFilter := 1, WheelTypeNd := 0];
      new;
      PositionTablesInjective();
      ndWheelRevertMap := C.Invert(NdKeys, ndWheelMap);
      filterWheelRevertMap := C.Invert(FilterKeys, filterWheelMap);
    }

    /**
     * `_GetWheelStatus` given the motor status byte and the positions the
     * two wheels report: success needs a successful motor and two mapped
     * positions; a position above 8 gives an error with both wheels
     * invalid, an unmapped one an error in which the other wheel keeps its
     * mapped entry.
     */
    function ReadWheels(raw: C.Byte, ndIndex: C.Byte, filterIndex: C.Byte): (r: WheelReading)
      reads this
      requires Configured()
      ensures raw != StatusSuccess ==> r == WheelReading(raw, T.NdInvalid, T.FilterInvalid)
      ensures raw == StatusSuccess && (ndIndex > WheelMaxValue || filterIndex > WheelMaxValue) ==>
        r == WheelReading(StatusError, T.NdInvalid, T.FilterInvalid)
      ensures r.status == StatusSuccess <==>
        raw == StatusSuccess
        && (exists nd :: nd in NdPositions && NdPositions[nd] == ndIndex)
        && (exists f :: f in FilterPositions && FilterPositions[f] == filterIndex)
      ensures r.status == StatusSuccess ==>
        r.nd in NdPositions && NdPositions[r.nd] == ndIndex && r.filter in FilterPositions && FilterPositions[r.filter] == filterIndex
      ensures r.status != StatusSuccess ==> r.status == raw || r.status == StatusError
      ensures raw == StatusSuccess && ndIndex <= WheelMaxValue && filterIndex <= WheelMaxValue ==>
        && ((exists nd :: nd in NdPositions && NdPositions[nd] == ndIndex) ==> r.nd in NdPositions && NdPositions[r.nd] == ndIndex)
        && (!(exists nd :: nd in NdPositions && NdPositions[nd] == ndIndex) ==> r.nd == T.NdInvalid)
        && ((exists f :: f in FilterPositions && FilterPositions[f] == filterIndex) ==> r.filter in FilterPositions && FilterPositions[r.filter] == filterIndex)
        && (!(exists f :: f in FilterPositions && FilterPositions[f] == filterIndex) ==> r.filter == T.FilterInvalid)
    {
      RevertMapsInvert();
      if raw != StatusSuccess then
        WheelReading(raw, T.NdInvalid, T.FilterInvalid)
      else if ndIndex > WheelMaxValue || filterIndex > WheelMaxValue then
        WheelReading(StatusError, T.NdInvalid, T.FilterInvalid)
      else
        var nd := if ndIndex in ndWheelRevertMap then ndWheelRevertMap[ndIndex] else T.NdInvalid;
        var filter := if filterIndex in filterWheelRevertMap then filterWheelRevertMap[filterIndex] else T.FilterInvalid;
        var ok := ndIndex in ndWheelRevertMap && filterIndex in filterWheelRevertMap;
        WheelReading(if ok then StatusSuccess else StatusError, nd, filter)
    }
  }

  // ---------------------------------------------------------------- measurement

  /** The filter check of `_CmdMeasure`: the mirror position cannot be measured. */
  function MeasureFilterCheck(filter: T.Filter): (e: C.Error)
    ensures e == C.InvalidConfiguration <==> filter == T.Mirror
    ensures e != C.InvalidConfiguration ==> e == C.Ok
  {
    if filter == T.Mirror then C.InvalidConfiguration else C.Ok
  }

  // ---------------------------------------------------------------- configuration files

  datatype ProcessingConfig = ProcessingConfig(
    biasCompensation: bool, sensorDefectCorrection: bool, sensorPrnuCorrection: bool,
    linearisation: bool, flatField: bool, absolute: bool)

  datatype NeededCfgFiles = NeededCfgFiles(cameraCfg: bool, opticalColumn: bool, flatField: bool)

  /** `_GetNeededCfgFiles`. */
  function GetNeededCfgFiles(config: ProcessingConfig): (n: NeededCfgFiles)
    ensures n.cameraCfg <==> config.biasCompensation || config.sensorDefectCorrection || config.sensorPrnuCorrection
    ensures n.opticalColumn <==> config.linearisation
    ensures n.flatField <==> config.flatField || config.absolute
  {
    NeededCfgFiles(
      config.biasCompensation || config.sensorDefectCorrection || config.sensorPrnuCorrection,
      config.linearisation,
      config.flatField || config.absolute)
  }

  /** Every step a configuration enables also enabled in another: that one needs every file the first needs. */
  predicate Enables(a: ProcessingConfig, b: ProcessingConfig)
  {
    (a.biasCompensation ==> b.biasCompensation) && (a.sensorDefectCorrection ==> b.sensorDefectCorrection)
    && (a.sensorPrnuCorrection ==> b.sensorPrnuCorrection) && (a.linearisation ==> b.linearisation)
    && (a.flatField ==> b.flatField) && (a.absolute ==> b.absolute)
  }

  lemma NeededFilesMonotone(a: ProcessingConfig, b: ProcessingConfig)
    requires Enables(a, b)
    ensures GetNeededCfgFiles(a).cameraCfg ==> GetNeededCfgFiles(b).cameraCfg
    ensures GetNeededCfgFiles(a).opticalColumn ==> GetNeededCfgFiles(b).opticalColumn
    ensures GetNeededCfgFiles(a).flatField ==> GetNeededCfgFiles(b).flatField
  {
  }

  // ---------------------------------------------------------------- file names

  datatype FileFormatKey =
    TimeStamp | Filter | Nd | Iris | ExpoTime | NbAcq | Height | Width | SatLevel | SatFlag | AeExpoGran

  /** The keys in the order `FormatFileName` replaces them. */
  const FormatKeys: seq<FileFormatKey> :=
    [TimeStamp, Filter, Nd, Iris, ExpoTime, NbAcq, Height, Width, SatLevel, SatFlag, AeExpoGran]

  function KeyName(k: FileFormatKey): string
  {
    match k
    case TimeStamp => "TimeStamp" case Filter => "Filter" case Nd => "Nd" case Iris => "Iris"
    case ExpoTime => "ExpoTime" case NbAcq => "NbAcq" case Height => "Height" case Width => "Width"
    case SatLevel => "SatLevel" case SatFlag => "SatFlag" case AeExpoGran => "AeExpoGran"
  }

  /** The placeholder of a key in a template. */
  function Placeholder(k: FileFormatKey): string
  {
    "<" + KeyName(k) + ">"
  }

  /** One `FORMAT_REPLACE`: a key given a non-empty value replaces its placeholder. */
  function FormatStep(name: string, params: map<FileFormatKey, string>, k: FileFormatKey): string
  {
    if k in params && params[k] != "" then Q.ReplaceAll(name, Placeholder(k), params[k]) else name
  }

  function FormatKeysFrom(name: string, params: map<FileFormatKey, string>, keys: seq<FileFormatKey>): string
    decreases |keys|
  {
    if keys == [] then name else FormatKeysFrom(FormatStep(name, params, keys[0]), params, keys[1..])
  }

  /** `FormatFileName`: an empty template gives an empty name. */
  function FormatFileName(template: string, params: map<FileFormatKey, string>): (name: string)
    ensures template == "" ==> name == ""
  {
    if template == "" then "" else FormatKeysFrom(template, params, FormatKeys)
  }

  /** A key absent or given an empty value leaves the name as it is. */
  lemma FormatSkipsEmpty(name: string, params: map<FileFormatKey, string>, k: FileFormatKey)
    requires k !in params || params[k] == ""
    ensures FormatStep(name, params, k) == name
  {
  }

  /** Without any non-empty value the template comes back unchanged. */
  lemma {:induction false} FormatWithoutValues(name: string, params: map<FileFormatKey, string>, keys: seq<FileFormatKey>)
    requires forall k :: k in params ==> params[k] == ""
    ensures FormatKeysFrom(name, params, keys) == name
    decreases |keys|
  {
    if keys != [] {
      FormatSkipsEmpty(name, params, keys[0]);
      FormatWithoutValues(name, params, keys[1..]);
    }
  }

  /** A key whose placeholder the name does not hold leaves the name unchanged, whatever its value. */
  lemma FormatWithoutPlaceholder(name: string, params: map<FileFormatKey, string>, k: FileFormatKey)
    requires k in params && params[k] != "" && !C.Contains(name, Placeholder(k))
    ensures FormatStep(name, params, k) == name
  {
    Q.ReplaceAbsent(name, Placeholder(k), params[k]);
  }

  /**
   * The outcome of one pass of the `<...>` removal loop of `_CleanFileName`:
   * go round again with this name, stop with it, or hand `QString::replace`
   * a negative length, which this model does not follow further.
   */
  datatype PairStep = Continue(name: string) | Stop(name: string) | NegativeLength(name: string)

  /**
   * One pass of the removal loop as written: the span from the first '<' to
   * the first '>' is removed. A '>' just before the '<' gives the length 0,
   * which removes nothing; one further before gives a negative length.
   */
  function PairStepAsWritten(name: string): (r: PairStep)
    ensures r.Stop? <==> '<' !in name || '>' !in name
    ensures r == Continue(name) <==> '>' in name && Q.IndexOf(name, '<') == Q.IndexOf(name, '>') + 1
    ensures r.NegativeLength? <==> '<' in name && '>' in name && Q.IndexOf(name, '>') + 1 < Q.IndexOf(name, '<')
  {
    var start := Q.IndexOf(name, '<');
    var end := Q.IndexOf(name, '>');
    if start == -1 || end == -1 then Stop(name)
    else if end >= start then Continue(name[..start] + name[end + 1..])
    else if end == start - 1 then Continue(name)
    else NegativeLength(name)
  }

  /** As written, "a><b" gives the length 0, so the loop goes round again with the same name and never stops. */
  lemma CleanLoopStuckAsWritten()
    ensures PairStepAsWritten("a><b") == Continue("a><b")
  {
    assert Q.IndexOf("a><b", '<') == 2;
    assert Q.IndexOf("a><b", '>') == 1;
  }

  /** The removal of `<...>` spans as intended: the '>' searched from the '<' on. */
  function StripPairs(name: string): (r: string)
    ensures |r| <= |name|
    decreases |name|
  {
    var start := Q.IndexOf(name, '<');
    if start == -1 then name
    else
      var end := Q.IndexFrom(name, '>', start);
      if end == -1 then name else StripPairs(name[..start] + name[end + 1..])
  }

  /** Collapsing runs of '_' by repeated replacement of "__" with "_". */
  function Collapse(name: string): (r: string)
    ensures !C.Contains(r, "__")
    decreases |name|
  {
    if C.Contains(name, "__") then
      Q.ReplaceShortens(name, "__", "_");
      Collapse(Q.ReplaceAll(name, "__", "_"))
    else name
  }

  /** `_CleanFileName` as intended: spans removed, stray brackets removed, underscores collapsed. */
  function Cleaned(name: string): string
  {
    Collapse(Q.ReplaceAll(Q.ReplaceAll(StripPairs(name), "<", ""), ">", ""))
  }

  /** Collapsing introduces no character other than '_'. */
  lemma {:induction false} CollapseChars(name: string)
    ensures forall x :: x in Collapse(name) ==> x in name || x == '_'
    decreases |name|
  {
    if C.Contains(name, "__") {
      Q.ReplaceShortens(name, "__", "_");
      Q.ReplaceChars(name, "__", "_");
      CollapseChars(Q.ReplaceAll(name, "__", "_"));
    }
  }

  /** The cleaned name holds neither '<' nor '>' nor "__". */
  lemma CleanedIsClean(name: string)
    ensures '<' !in Cleaned(name) && '>' !in Cleaned(name) && !C.Contains(Cleaned(name), "__")
  {
    var a := Q.ReplaceAll(StripPairs(name), "<", "");
    var b := Q.ReplaceAll(a, ">", "");
    Q.RemoveChar(StripPairs(name), '<');
    Q.RemoveChar(a, '>');
    Q.ReplaceChars(a, ">", "");
    CollapseChars(b);
  }

  /** A name already clean is left as it is. */
  lemma CleanKeepsClean(name: string)
    requires '<' !in name && '>' !in name && !C.Contains(name, "__")
    ensures Cleaned(name) == name
  {
    Q.ContainsChar(name, '<');
    Q.ContainsChar(name, '>');
    Q.ReplaceAbsent(name, "<", "");
    Q.ReplaceAbsent(name, ">", "");
  }

  /** `_CleanFileName`, with the '>' searched from the '<' on, on a name it returns. */
  method CleanFileName(name: string) returns (clean: string)
    ensures clean == Cleaned(name)
    ensures '<' !in clean && '>' !in clean && !C.Contains(clean, "__")
  {
    clean := name;
    var finished := false;
    while !finished
      invariant StripPairs(clean) == StripPairs(name)
      invariant finished ==> clean == StripPairs(name)
      decreases |clean|, !finished
    {
      var start := Q.IndexOf(clean, '<');
      var end := if start == -1 then -1 else Q.IndexFrom(clean, '>', start);
      if start != -1 && end != -1 {
        clean := clean[..start] + clean[end + 1..];
      } else {
        finished := true;
      }
    }
    clean := Q.ReplaceAll(clean, "<", "");
    clean := Q.ReplaceAll(clean, ">", "");
    ghost var stripped := clean;
    while C.Contains(clean, "__")
      invariant Collapse(clean) == Collapse(stripped)
      decreases |clean|
    {
      Q.ReplaceShortens(clean, "__", "_");
      clean := Q.ReplaceAll(clean, "__", "_");
    }
    CleanedIsClean(name);
  }

  // ---------------------------------------------------------------- lists

  /** `_ListTrim`: the last elements removed until at most `listSize` are left; the rest is the list's prefix. */
  method ListTrim(list: seq<int>, listSize: int) returns (trimmed: seq<int>)
    requires listSize >= 0
    ensures trimmed == if |list| > listSize then list[..listSize] else list
  {
    trimmed := list;
    var overload := |list| - listSize;
    while overload > 0
      invariant |trimmed| == listSize + overload && (|list| > listSize ==> overload >= 0)
      invariant trimmed == list[..|trimmed|] && (|list| <= listSize ==> trimmed == list)
    {
      trimmed := trimmed[..|trimmed| - 1];
      overload := overload - 1;
    }
    assert list[..|list|] == list;
  }

  /** `_ListAverage`: the truncated mean of a non-empty list of 16-bit values. */
  method ListAverage(list: seq<int>) returns (average: int)
    requires |list| > 0 && forall i :: 0 <= i < |list| ==> 0 <= list[i] < 0x1_0000
    ensures average == C.Sum(list) / |list|
    ensures 0 <= average < 0x1_0000
  {
    var sum := 0;
    var index := 0;
    while index < |list|
      invariant 0 <= index <= |list|
      invariant sum == C.Sum(list[..index])
    {
      assert list[..index + 1] == list[..index] + [list[index]];
      C.SumAppend(list[..index], list[index]);
      sum := sum + list[index];
      index := index + 1;
    }
    assert list[..index] == list;
    AverageBounds(list, 0, 0xFFFF);
    average := sum / |list|;
  }

  /** The truncated mean of values within bounds is within the same bounds. */
  lemma AverageBounds(list: seq<int>, lo: int, hi: int)
    requires |list| > 0 && 0 <= lo && forall i :: 0 <= i < |list| ==> lo <= list[i] <= hi
    ensures lo <= C.Sum(list) / |list| <= hi
  {
    SumBounds(list, lo, hi);
    C.MeanWithin(C.Sum(list), |list|, lo, hi);
  }

  lemma {:induction false} SumBounds(list: seq<int>, lo: int, hi: int)
    requires forall i :: 0 <= i < |list| ==> lo <= list[i] <= hi
    ensures |list| * lo <= C.Sum(list) <= |list| * hi
  {
    if list != [] {
      SumBounds(list[1..], lo, hi);
      assert |list| * lo == lo + (|list| - 1) * lo;
      assert |list| * hi == hi + (|list| - 1) * hi;
    }
  }
}
