/*
 * The enumerations of the Conoscope library's public types: the filter and
 * ND wheel positions, the iris, the wheel state and the temperature
 * monitoring state. The C++ code keys its string tables by the enumerator's
 * integer value; `Code` gives that value (declaration order).
 */
module ConoscopeTypes {
  datatype Filter = BK7 | Mirror | X | Xz | Ya | Yb | Z | IrCut | FilterInvalid
  datatype Nd = Nd0 | Nd1 | Nd2 | Nd3 | Nd4 | NdInvalid
  datatype Iris = Iris2mm | Iris3mm | Iris4mm | Iris5mm | IrisInvalid
  datatype WheelState = WheelIdle | WheelSuccess | WheelOperating | WheelError
  datatype TemperatureMonitoringState = NotStarted | Processing | Locked | Aborted | MonitoringError

  /** The enumerators in declaration order. */
  const Filters: seq<Filter> := [BK7, Mirror, X, Xz, Ya, Yb, Z, IrCut, FilterInvalid]
  const Nds: seq<Nd> := [Nd0, Nd1, Nd2, Nd3, Nd4, NdInvalid]
  const Irises: seq<Iris> := [Iris2mm, Iris3mm, Iris4mm, Iris5mm, IrisInvalid]

  function FilterCode(f: Filter): (n: int)
    ensures 0 <= n < |Filters| && Filters[n] == f
  {
    match f
    case BK7 => 0 case Mirror => 1 case X => 2 case Xz => 3 case Ya => 4
    case Yb => 5 case Z => 6 case IrCut => 7 case FilterInvalid => 8
  }

  function NdCode(nd: Nd): (n: int)
    ensures 0 <= n < |Nds| && Nds[n] == nd
  {
    match nd
    case Nd0 => 0 case Nd1 => 1 case Nd2 => 2 case Nd3 => 3 case Nd4 => 4 case NdInvalid => 5
  }

  function IrisCode(i: Iris): (n: int)
    ensures 0 <= n < |Irises| && Irises[n] == i
  {
    match i
    case Iris2mm => 0 case Iris3mm => 1 case Iris4mm => 2 case Iris5mm => 3 case IrisInvalid => 4
  }

  function WheelStateCode(s: WheelState): (n: int)
    ensures 0 <= n < 4
  {
    match s
    case WheelIdle => 0 case WheelSuccess => 1 case WheelOperating => 2 case WheelError => 3
  }

  function TemperatureCode(s: TemperatureMonitoringState): (n: int)
    ensures 0 <= n < 5
  {
    match s
    case NotStarted => 0 case Processing => 1 case Locked => 2 case Aborted => 3 case MonitoringError => 4
  }
}
