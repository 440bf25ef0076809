/*
 * The demo application's controller: an event-driven state machine in
 * which every busy state hands one request to a worker thread on entry and
 * is left by the event the worker's job-done notification turns into.
 */
module DemoController {
  import C = Common

  datatype State =
    | Undefined | Idle | Opening | Opened | SettingUp | Ready | Measuring | MeasureDone
    | MeasuringAE | MeasuringAECanceling | ExportRaw | ExportProcessing
    | CfgFileReading | CfgFileWriting | Closing | Reseting | Error
    | Streaming | StreamStoping | DisplayRaw | DisplayProcessed
    | CapturingSequence | CaptureSequenceCanceling | ConvertingRaw

  datatype Event =
    | Open | OpenDone | Setup | SetupDone | Measure | MeasureDone | MeasureNonFatalError
    | ExportRaw | ExportProcessed | ExportDone | Close | CloseDone | Reset | ResetDone
    | CfgFileRead | CfgFileWrite | CmdCfgFileDone | Stream | StreamDone
    | DisplayRaw | DisplayProcessed | CaptureSequence | CaptureSequenceCancel | CaptureSequenceDone
    | MeasureAE | MeasureAECancel | MeasureAEDone | ConvertRaw | ConvertRawDone | Error

  /** AppControllerWorker::Request: the jobs and the events the worker reports back. */
  datatype Request =
    | CmdOpen | CmdSetup | CmdMeasure | CmdMeasureAE | CmdMeasureAECancel
    | CmdExportRaw | CmdExportProcessed | CmdClose | CmdReset | CmdSetConfig
    | CmdCfgFileWrite | CmdCfgFileRead | CmdStream | CmdExportRawBuffer | CmdExportProcessedBuffer
    | CmdCaptureSequence | CmdCaptureSequenceCancel
    | EventCaptureSequenceDone | EventCaptureSequenceCancel | EventCaptureSequenceError
    | EventMeasureAEDone | EventMeasureAECancel | EventMeasureAEError | CmdConvertRaw

  /** What entering a state does to the worker: send it a request, or cancel its current job. */
  datatype Action = Send(request: Request) | CancelCurrent

  datatype Option<T> = None | Some(value: T)

  /** The `m_state` and the function-static `convertRawState` (zero-initialised, so Undefined). */
  datatype Machine = Machine(state: State, convertRawState: State)

  /** The action `ChangeState` performs on entering a state. */
  function EntryAction(s: State): Option<Action>
  {
    match s
    case Opening => Some(Send(CmdOpen))
    case SettingUp => Some(Send(CmdSetup))
    case Measuring => Some(Send(CmdMeasure))
    case ExportRaw => Some(Send(CmdExportRaw))
    case ExportProcessing => Some(Send(CmdExportProcessed))
    case Closing => Some(Send(CmdClose))
    case Reseting => Some(Send(CmdReset))
    case CfgFileReading => Some(Send(CmdCfgFileRead))
    case CfgFileWriting => Some(Send(CmdCfgFileWrite))
    case Streaming => Some(Send(CmdStream))
    case StreamStoping => Some(CancelCurrent)
    case DisplayRaw => Some(Send(CmdExportRawBuffer))
    case DisplayProcessed => Some(Send(CmdExportProcessedBuffer))
    case CapturingSequence => Some(Send(CmdCaptureSequence))
    case CaptureSequenceCanceling => Some(Send(CmdCaptureSequenceCancel))
    case MeasuringAE => Some(Send(CmdMeasureAE))
    case MeasuringAECanceling => Some(Send(CmdMeasureAECancel))
    case ConvertingRaw => Some(Send(CmdConvertRaw))
    case _ => None
  }

  /** The states that wait for the worker. */
  predicate Busy(s: State)
  {
    !(s in {Undefined, Idle, Opened, Ready, State.MeasureDone, State.Error})
  }

  /** The state `ProcessStateMachine` moves to for an event, if the current state handles it. */
  function Target(m: Machine, e: Event): (t: Option<State>)
    ensures t == Some(ConvertingRaw) ==> (m.state == Idle && e == ConvertRaw) || m.state == ConvertingRaw
  {
    match m.state
    case Idle =>
      if e == Open then Some(Opening) else if e == Reset then Some(Reseting)
      else if e == ConvertRaw then Some(ConvertingRaw) else None
    case Opening =>
      if e == OpenDone then Some(Opened) else if e == Event.Error then Some(State.Error) else None
    case Opened =>
      if e == Setup then Some(SettingUp) else if e == Close then Some(Closing)
      else if e == Reset then Some(Reseting) else if e == CfgFileRead then Some(CfgFileReading)
      else if e == CfgFileWrite then Some(CfgFileWriting) else if e == CaptureSequence then Some(CapturingSequence)
      else None
    case CfgFileReading => if e == CmdCfgFileDone then Some(Opened) else None
    case CfgFileWriting => if e == CmdCfgFileDone then Some(Opened) else None
    case SettingUp =>
      if e == SetupDone then Some(Ready) else if e == Event.Error then Some(State.Error) else None
    case Ready =>
      if e == Setup then Some(SettingUp) else if e == SetupDone then Some(Ready)
      else if e == Measure then Some(Measuring) else if e == MeasureAE then Some(MeasuringAE)
      else if e == Close then Some(Closing) else if e == Reset then Some(Reseting)
      else if e == Stream then Some(Streaming) else if e == CaptureSequence then Some(CapturingSequence)
      else None
    case Measuring =>
      if e == Event.MeasureDone then Some(State.MeasureDone) else if e == MeasureNonFatalError then Some(Ready)
      else if e == Event.Error then Some(State.Error) else None
    case MeasuringAE =>
      if e == MeasureAEDone then Some(State.MeasureDone) else if e == MeasureAECancel then Some(MeasuringAECanceling)
      else if e == Event.Error then Some(State.Error) else None
    case MeasuringAECanceling => if e == MeasureAEDone then Some(Ready) else None
    case MeasureDone =>
      if e == Setup then Some(SettingUp) else if e == Measure then Some(Measuring)
      else if e == MeasureAE then Some(MeasuringAE) else if e == Event.ExportRaw then Some(State.ExportRaw)
      else if e == ExportProcessed then Some(ExportProcessing) else if e == Close then Some(Closing)
      else if e == Reset then Some(Reseting) else if e == Event.DisplayRaw then Some(State.DisplayRaw)
      else if e == Event.DisplayProcessed then Some(State.DisplayProcessed)
      else if e == CaptureSequence then Some(CapturingSequence)
      else None
    case ExportRaw => if e == ExportDone then Some(State.MeasureDone) else None
    case ExportProcessing => if e == ExportDone then Some(State.MeasureDone) else None
    case Closing => if e == CloseDone then Some(Idle) else None
    case Reseting =>
      if e == ResetDone then Some(Opened) else if e == Event.Error then Some(State.Error) else None
    case Error =>
      if e == Close then Some(Closing) else if e == Reset then Some(Reseting) else None
    case Streaming =>
      if e == Stream then Some(StreamStoping) else if e == StreamDone then Some(Ready)
      else if e == Event.Error then Some(State.Error) else None
    case StreamStoping =>
      if e == StreamDone then Some(Ready) else if e == Event.Error then Some(State.Error) else None
    case DisplayRaw =>
      if e == ExportDone || e == Event.Error then Some(State.MeasureDone) else None
    case DisplayProcessed =>
      if e == ExportDone || e == Event.Error then Some(State.MeasureDone) else None
    case CapturingSequence =>
      if e == CaptureSequenceCancel then Some(CaptureSequenceCanceling)
      else if e == CaptureSequenceDone then Some(Opened)
      else if e == Event.Error then Some(State.Error) else None
    case CaptureSequenceCanceling => if e == CaptureSequenceDone then Some(Opened) else None
    case ConvertingRaw => if e == ConvertRawDone then Some(m.convertRawState) else None
    case Undefined => None
  }

  datatype Outcome = Outcome(machine: Machine, error: C.Error, action: Option<Action>)

  /** `ProcessStateMachine(event)`: ConvertRaw remembers the state to come back to. */
  function Step(m: Machine, e: Event): Outcome
  {
    match Target(m, e)
    case None => Outcome(m, C.InvalidState, None)
    case Some(t) =>
      var back := if m.state == Idle && e == ConvertRaw then m.state else m.convertRawState;
      Outcome(Machine(t, back), C.Ok, EntryAction(t))
  }

  /** `on_worker_jobDone`: the event a finished request is turned into, if any. */
  function JobDoneEvent(request: Request, error: C.Error): Option<Event>
  {
    if request == CmdMeasure && error == C.InvalidConfiguration then Some(MeasureNonFatalError)
    else if error != C.Ok then Some(Event.Error)
    else match request
      case CmdOpen => Some(OpenDone)
      case CmdSetup => Some(SetupDone)
      case CmdMeasure => Some(Event.MeasureDone)
      case CmdExportRaw => Some(ExportDone)
      case CmdExportProcessed => Some(ExportDone)
      case CmdClose => Some(CloseDone)
      case CmdReset => Some(ResetDone)
      case CmdCfgFileRead => Some(CmdCfgFileDone)
      case CmdCfgFileWrite => Some(CmdCfgFileDone)
      case CmdStream => Some(StreamDone)
      case CmdExportRawBuffer => Some(ExportDone)
      case CmdExportProcessedBuffer => Some(ExportDone)
      case EventCaptureSequenceDone => Some(CaptureSequenceDone)
      case EventCaptureSequenceCancel => Some(CaptureSequenceDone)
      case EventCaptureSequenceError => Some(Event.Error)
      case EventMeasureAEDone => Some(MeasureAEDone)
      case EventMeasureAECancel => Some(MeasureAECancel)
      case EventMeasureAEError => Some(Event.Error)
      case CmdConvertRaw => Some(ConvertRawDone)
      case _ => None
  }

  /** `convertRawState` only ever holds Idle once set, and ConvertingRaw is only entered after it is set. */
  predicate Consistent(m: Machine)
  {
    (m.convertRawState == Undefined || m.convertRawState == Idle) && (m.state == ConvertingRaw ==> m.convertRawState == Idle)
  }

  /** `ProcessStateMachine` over a series of events. */
  function Run(m: Machine, events: seq<Event>): Machine
    decreases |events|
  {
    if events == [] then m else Run(Step(m, events[0]).machine, events[1..])
  }

  /** Every accepted event answers Ok, every refused one InvalidState with nothing changed. */
  lemma StepAnswer(m: Machine, e: Event)
    ensures Step(m, e).error == C.Ok <==> Target(m, e).Some?
    ensures Target(m, e).None? ==> Step(m, e) == Outcome(m, C.InvalidState, None)
  {
  }

  /** Entering a state acts on the worker exactly when the state waits for it. */
  lemma BusyIffEntryAction(s: State)
    ensures EntryAction(s).Some? <==> Busy(s)
  {
  }

  /** A failed request becomes the Error event, except a measure refused for its configuration. */
  lemma FailureBecomesError(request: Request, error: C.Error)
    requires error != C.Ok
    ensures JobDoneEvent(request, error) == Some(Event.Error) <==>
      !(request == CmdMeasure && error == C.InvalidConfiguration)
    ensures request == CmdMeasure && error == C.InvalidConfiguration ==>
      JobDoneEvent(request, error) == Some(MeasureNonFatalError)
  {
  }

  /** The states in which the worker runs a job that can fail. */
  predicate RunsJob(s: State)
  {
    s == Opening || s == SettingUp || s == Measuring || s == MeasuringAE || s == Reseting
    || s == Streaming || s == StreamStoping || s == CapturingSequence
  }

  /** The states that wait for a display export. */
  predicate Displays(s: State)
  {
    s == State.DisplayRaw || s == State.DisplayProcessed
  }

  /** The states in which nothing runs. */
  predicate Waiting(s: State)
  {
    s == Idle || s == Opened || s == Ready || s == State.MeasureDone || s == State.Error
  }

  /** Reporting an error moves a running job to Error. */
  lemma ErrorStopsJob(m: Machine)
    requires RunsJob(m.state)
    ensures Step(m, Event.Error).machine.state == State.Error
  {
  }

  /** A display that reports an error falls back to MeasureDone. */
  lemma ErrorEndsDisplay(m: Machine)
    requires Displays(m.state)
    ensures Step(m, Event.Error).machine.state == State.MeasureDone
  {
  }

  /** An error reported while nothing runs is refused. */
  lemma ErrorRefusedWhenWaiting(m: Machine)
    requires Waiting(m.state)
    ensures Step(m, Event.Error).error == C.InvalidState
  {
  }

  /** One step keeps the convert-raw bookkeeping consistent. */
  lemma StepConsistent(m: Machine, e: Event)
    requires Consistent(m)
    ensures Consistent(Step(m, e).machine)
  {
  }

  /** Any series of events keeps it consistent. */
  lemma {:induction false} RunConsistent(m: Machine, events: seq<Event>)
    requires Consistent(m)
    ensures Consistent(Run(m, events))
    decreases |events|
  {
    if events != [] {
      StepConsistent(m, events[0]);
      RunConsistent(Step(m, events[0]).machine, events[1..]);
    }
  }

  /** Hence a finished conversion always lands back in Idle. */
  lemma ConvertRawReturnsToIdle(m: Machine)
    requires Consistent(m) && m.state == ConvertingRaw
    ensures Step(m, ConvertRawDone).machine.state == Idle
  {
  }

  class Controller {
    var state: State
    var convertRawState: State
    /** What the controller asked of the worker, in order. */
    var actions: seq<Action>

    ghost predicate Valid()
      reads this
    {
      Consistent(Machine(state, convertRawState))
    }

    constructor ()
      ensures state == Undefined && convertRawState == Undefined && actions == []
      ensures Valid()
    {
      state := Undefined;
      convertRawState := Undefined;
      actions := [];
    }

    /** `Start()`: only an Undefined machine starts its thread, whose `run()` enters Idle. */
    method Start()
      requires Valid()
      modifies this`state
      ensures state == (if old(state) == Undefined then Idle else old(state)) && Valid()
    {
      if state == Undefined {
        state := Idle;
      }
    }

    method ProcessStateMachine(e: Event) returns (err: C.Error)
      requires Valid()
      modifies this`state, this`convertRawState, this`actions
      ensures var o := Step(Machine(old(state), old(convertRawState)), e);
        && Machine(state, convertRawState) == o.machine && err == o.error
        && actions == old(actions) + (if o.action.Some? then [o.action.value] else [])
      ensures Valid()
    {
      StepConsistent(Machine(state, convertRawState), e);
      var o := Step(Machine(state, convertRawState), e);
      state, convertRawState := o.machine.state, o.machine.convertRawState;
      if o.action.Some? {
        actions := actions + [o.action.value];
      }
      err := o.error;
    }

    /** `on_worker_jobDone`: the finished request drives the state machine, when it maps to an event. */
    method OnWorkerJobDone(request: Request, error: C.Error)
      requires Valid()
      modifies this`state, this`convertRawState, this`actions
      ensures JobDoneEvent(request, error).None? ==>
        state == old(state) && convertRawState == old(convertRawState) && actions == old(actions)
      ensures JobDoneEvent(request, error).Some? ==>
        var o := Step(Machine(old(state), old(convertRawState)), JobDoneEvent(request, error).value);
        && Machine(state, convertRawState) == o.machine
        && actions == old(actions) + (if o.action.Some? then [o.action.value] else [])
      ensures Valid()
    {
      var ev := JobDoneEvent(request, error);
      if ev.Some? {
        var _ := ProcessStateMachine(ev.value);
      }
    }
  }
}
