/*
 * Conoscope: the library's lower state machine, without capture sequences
 * and auto exposure. Every command except the configuration-file read and
 * write runs synchronously inside the step that accepts it; those two are
 * handed to the worker and finish in `on_worker_jobDone`.
 *
 * `result` stands for what the ConoscopeProcess command entered by an event
 * returns; the process itself is modelled in the ConoscopeProcess module.
 */
module ConoscopeSm {
  import C = Common

  datatype State =
    | Undefined | Idle | Opened | Ready | CaptureDone
    | CmdOpenProcessing | CmdSetupProcessing | CmdMeasureProcessing | CmdExportRawProcessing
    | CmdExportProcessedProcessing | CmdCloseProcessing | CmdResetProcessing
    | CmdCfgFileWriteProcessing | CmdCfgFileReadProcessing
    | Error

  datatype Event =
    | CmdOpen | CmdSetup | CmdMeasure | CmdExportRaw | CmdExportProcessed | CmdClose | CmdReset
    | CmdCfgFileWrite | CmdCfgFileRead | CmdCfgFileStatus | Error

  /** The requests sent to the worker thread. */
  datatype Request = CfgFileWriteRequest | CfgFileReadRequest

  /** `mState` and `mStatePrevious`. */
  datatype Machine = Machine(state: State, previous: State)

  datatype Outcome = Outcome(machine: Machine, error: C.Error, request: Option<Request>)

  datatype Option<T> = None | Some(value: T)

  /** The state `ProcessStateMachine` hands to `ChangeState` for an event, if it accepts it. */
  function Target(s: State, e: Event, debugMode: bool): Option<State>
  {
    match s
    case Idle =>
      if e == CmdOpen then Some(CmdOpenProcessing)
      else if e == CmdReset then Some(CmdResetProcessing)
      else if e == CmdExportProcessed && debugMode then Some(CmdExportProcessedProcessing)
      else None
    case Opened =>
      if e == CmdSetup then Some(CmdSetupProcessing)
      else if e == CmdClose then Some(CmdCloseProcessing)
      else if e == CmdReset then Some(CmdResetProcessing)
      else if e == CmdCfgFileWrite then Some(CmdCfgFileWriteProcessing)
      else if e == CmdCfgFileRead then Some(CmdCfgFileReadProcessing)
      else None
    case Ready =>
      if e == CmdSetup then Some(CmdSetupProcessing)
      else if e == CmdMeasure then Some(CmdMeasureProcessing)
      else if e == CmdClose then Some(CmdCloseProcessing)
      else if e == CmdReset then Some(CmdResetProcessing)
      else if e == CmdCfgFileWrite then Some(CmdCfgFileWriteProcessing)
      else if e == CmdCfgFileRead then Some(CmdCfgFileReadProcessing)
      else None
    case CaptureDone =>
      if e == CmdSetup then Some(CmdSetupProcessing)
      else if e == CmdMeasure then Some(CmdMeasureProcessing)
      else if e == CmdExportRaw then Some(CmdExportRawProcessing)
      else if e == CmdExportProcessed then Some(CmdExportProcessedProcessing)
      else if e == CmdClose then Some(CmdCloseProcessing)
      else if e == CmdReset then Some(CmdResetProcessing)
      else None
    case Error =>
      if e == CmdClose then Some(CmdCloseProcessing)
      else if e == CmdReset then Some(CmdResetProcessing)
      else None
    case _ => None
  }

  function After(ok: State, failed: State, result: C.Error): State
  {
    if result == C.Ok then ok else failed
  }

  /** `ChangeState(target)`: records the previous state, enters the target and runs its command. */
  function ChangeState(m: Machine, target: State, result: C.Error): (o: Outcome)
    ensures o.machine.previous == m.state
  {
    var prev := m.state;
    match target
    case Undefined => Outcome(Machine(target, prev), C.Ok, None)
    case Idle => Outcome(Machine(target, prev), C.Ok, None)
    case CmdOpenProcessing => Outcome(Machine(After(Opened, State.Error, result), prev), result, None)
    case CmdSetupProcessing => Outcome(Machine(After(Ready, State.Error, result), prev), result, None)
    case CmdMeasureProcessing =>
      var next := if result == C.Ok then CaptureDone
                  else if result == C.InvalidParameter || result == C.InvalidConfiguration then Ready
                  else State.Error;
      Outcome(Machine(next, prev), result, None)
    case CmdExportRawProcessing => Outcome(Machine(After(CaptureDone, State.Error, result), prev), result, None)
    case CmdExportProcessedProcessing => Outcome(Machine(CaptureDone, prev), result, None)
    case CmdCloseProcessing => Outcome(Machine(After(Idle, State.Error, result), prev), result, None)
    case CmdResetProcessing => Outcome(Machine(After(Opened, State.Error, result), prev), result, None)
    case CmdCfgFileWriteProcessing => Outcome(Machine(target, prev), C.Ok, Some(CfgFileWriteRequest))
    case CmdCfgFileReadProcessing => Outcome(Machine(target, prev), C.Ok, Some(CfgFileReadRequest))
    case _ => Outcome(Machine(target, prev), C.Failed, None)
  }

  /** `ProcessStateMachine(event)`. */
  function Step(m: Machine, e: Event, debugMode: bool, result: C.Error): Outcome
  {
    match Target(m.state, e, debugMode)
    case None => Outcome(m, C.InvalidState, None)
    case Some(t) => ChangeState(m, t, result)
  }

  /** `on_worker_jobDone` for a configuration-file job: back to the state recorded before it, whatever its result. */
  function JobDone(m: Machine): Machine
  {
    ChangeState(m, m.previous, C.Ok).machine
  }

  /** The states the machine rests in between calls; a configuration-file job remembers where it came from. */
  predicate Resting(m: Machine)
  {
    m.state in {Undefined, Idle, Opened, Ready, CaptureDone, State.Error}
    || (m.state in {CmdCfgFileWriteProcessing, CmdCfgFileReadProcessing} && m.previous in {Opened, Ready})
  }

  /** `ProcessStateMachine` over a series of events, the i-th command returning `results[i]`. */
  function Run(m: Machine, events: seq<Event>, debugMode: bool, results: seq<C.Error>): Machine
    requires |events| == |results|
    decreases |events|
  {
    if events == [] then m
    else Run(Step(m, events[0], debugMode, results[0]).machine, events[1..], debugMode, results[1..])
  }

  /** An event the state does not handle is refused with InvalidState and changes nothing. */
  lemma UnhandledRefused(m: Machine, e: Event, debugMode: bool, result: C.Error)
    requires Target(m.state, e, debugMode).None?
    ensures Step(m, e, debugMode, result) == Outcome(m, C.InvalidState, None)
  {
  }

  /** One step keeps the machine resting. */
  lemma StepRests(m: Machine, e: Event, debugMode: bool, result: C.Error)
    requires Resting(m)
    ensures Resting(Step(m, e, debugMode, result).machine)
  {
  }

  /** Any series of events keeps the machine resting: no synchronous command is ever left half done. */
  lemma {:induction false} RunRests(m: Machine, events: seq<Event>, debugMode: bool, results: seq<C.Error>)
    requires Resting(m) && |events| == |results|
    ensures Resting(Run(m, events, debugMode, results))
    decreases |events|
  {
    if events != [] {
      StepRests(m, events[0], debugMode, results[0]);
      RunRests(Step(m, events[0], debugMode, results[0]).machine, events[1..], debugMode, results[1..]);
    }
  }

  /** A configuration-file job sent from Opened or Ready returns there when the worker is done. */
  lemma CfgFileRoundTrip(m: Machine, e: Event, debugMode: bool, result: C.Error)
    requires m.state in {Opened, Ready} && e in {CmdCfgFileWrite, CmdCfgFileRead}
    ensures var o := Step(m, e, debugMode, result);
      && o.error == C.Ok && o.request.Some?
      && Resting(o.machine)
      && JobDone(o.machine).state == m.state
  {
  }

  /** Measure is accepted only from Ready or CaptureDone, and a refused parameter brings it back to Ready. */
  lemma MeasureOutcome(m: Machine, debugMode: bool, result: C.Error)
    ensures Target(m.state, CmdMeasure, debugMode).Some? <==> m.state in {Ready, CaptureDone}
    ensures m.state in {Ready, CaptureDone} ==>
      var next := Step(m, CmdMeasure, debugMode, result).machine.state;
      && (result == C.Ok <==> next == CaptureDone)
      && (result in {C.InvalidParameter, C.InvalidConfiguration} <==> next == Ready)
  {
  }

  /** A failed synchronous command leaves the machine in Error, except export-processed and a refused measure. */
  lemma FailureMeansError(m: Machine, e: Event, debugMode: bool, result: C.Error)
    requires Target(m.state, e, debugMode).Some?
    requires e in {CmdOpen, CmdSetup, CmdExportRaw, CmdClose, CmdReset} && result != C.Ok
    ensures Step(m, e, debugMode, result).machine.state == State.Error
    ensures Step(m, e, debugMode, result).error == result
  {
  }

  // ---- argument checks of the command entry points ----

  const IrisIndexInvalid: int := 4
  const FilterInvalid: int := 8
  const NdInvalid: int := 5

  /** `CmdSetup`'s check as written: the ND index is compared with `>` against Nd_Invalid. */
  function SetupArgsAsWritten(iris: int, filter: int, nd: int): (r: C.Error)
    ensures r == C.Ok <==> iris < IrisIndexInvalid && filter < FilterInvalid && nd <= NdInvalid
    ensures r != C.Ok ==> r == C.InvalidParameter
  {
    if iris >= IrisIndexInvalid || filter >= FilterInvalid || nd > NdInvalid then C.InvalidParameter else C.Ok
  }

  /** `CmdSetup`'s check: each wheel index must name a real position, below its Invalid value. */
  function SetupArgs(iris: int, filter: int, nd: int): (r: C.Error)
    ensures r == C.Ok <==> iris < IrisIndexInvalid && filter < FilterInvalid && nd < NdInvalid
    ensures r != C.Ok ==> r == C.InvalidParameter
  {
    if iris >= IrisIndexInvalid || filter >= FilterInvalid || nd >= NdInvalid then C.InvalidParameter else C.Ok
  }

  /** As written, Nd_Invalid passes the check and reaches the state machine. */
  lemma NdInvalidAccepted()
    ensures SetupArgsAsWritten(0, 0, NdInvalid) == C.Ok
    ensures SetupArgs(0, 0, NdInvalid) == C.InvalidParameter
  {
  }

  /** `CmdMeasure`'s check: at least 10 µs, and 1 to 30 acquisitions. */
  function MeasureArgs(exposureTimeUs: int, nbAcquisition: int): (r: C.Error)
    ensures r == C.Ok <==> exposureTimeUs >= 10 && 1 <= nbAcquisition <= 30
    ensures r != C.Ok ==> r == C.InvalidParameter
  {
    if exposureTimeUs < 10 || nbAcquisition < 1 || nbAcquisition > 30 then C.InvalidParameter else C.Ok
  }

  /** `CmdSetupStatus` queries the process only in these states. */
  predicate SetupStatusAllowed(s: State)
  {
    s in {Opened, Ready, CaptureDone, CmdSetupProcessing, CmdMeasureProcessing, CmdExportRawProcessing, CmdExportProcessedProcessing}
  }

  datatype SetupConfig = SetupConfig(iris: int, filter: int, nd: int)

  /** The two checked fields of `MeasureConfigWithCropFactor_t`. */
  datatype MeasureConfig = MeasureConfig(exposureTimeUs: int, nbAcquisition: int)

  // ---- the debug-mode setup at the head of ChangeState ----

  /** The configuration a command entry point passes down as the `void*` parameter. */
  datatype Parameter = NoParameter | SetupParameter(setup: SetupConfig) | MeasureParameter(measure: MeasureConfig) | ProcessingParameter

  /** The parameter each command entry point passes to `ProcessStateMachine`. */
  predicate Fits(e: Event, p: Parameter)
  {
    match e
    case CmdSetup => p.SetupParameter?
    case CmdMeasure => p.MeasureParameter?
    case CmdExportProcessed => p == ProcessingParameter
    case _ => p == NoParameter
  }

  /**
   * The parameter `ProcessStateMachine` hands on to `ChangeState`: setup,
   * measure and the export-processed transition from CaptureDone forward
   * theirs; every other transition calls `ChangeState(target)`, which passes
   * `nullptr`.
   */
  function Passed(s: State, e: Event, p: Parameter): (q: Parameter)
    ensures q == p || q == NoParameter
  {
    if e == CmdSetup || e == CmdMeasure || (e == CmdExportProcessed && s == CaptureDone) then p else NoParameter
  }

  /** What `CmdSetupDebug(*pSetupConfig)` does with the parameter, read as a `SetupConfig_t*`. */
  datatype DebugSetup = Copied(setup: SetupConfig) | NullDereferenced | Reinterpreted

  /** As written: in debug mode every ChangeState dereferences its parameter as a setup configuration. */
  function DebugSetupAsWritten(p: Parameter): (d: DebugSetup)
    ensures d == NullDereferenced <==> p == NoParameter
    ensures d.Copied? <==> p.SetupParameter?
  {
    match p
    case NoParameter => NullDereferenced
    case SetupParameter(c) => Copied(c)
    case _ => Reinterpreted
  }

  /** What one ChangeState records of its debug-mode setup: nothing outside debug mode. */
  function DebugLog(debugMode: bool, p: Parameter): seq<DebugSetup>
  {
    if debugMode then [DebugSetupAsWritten(p)] else []
  }

  /** Corrected: the debug setup copies a setup configuration, and nothing when given anything else. */
  function DebugSetupCorrected(p: Parameter): Option<SetupConfig>
  {
    if p.SetupParameter? then Some(p.setup) else None
  }

  /**
   * As written, in debug mode, every accepted transition other than setup,
   * measure and export-processed from CaptureDone dereferences a null setup.
   */
  lemma NullSetupDereferencedAsWritten(m: Machine, e: Event, p: Parameter)
    requires Target(m.state, e, true).Some?
    requires e != CmdSetup && e != CmdMeasure && !(e == CmdExportProcessed && m.state == CaptureDone)
    ensures DebugSetupAsWritten(Passed(m.state, e, p)) == NullDereferenced
  {
  }

  /** As written, the one transition that exists only in debug mode dereferences a null setup. */
  lemma DebugExportFromIdleDereferencesNullAsWritten()
    ensures Target(Idle, CmdExportProcessed, true) == Some(CmdExportProcessedProcessing)
    ensures Target(Idle, CmdExportProcessed, false).None?
    ensures DebugSetupAsWritten(Passed(Idle, CmdExportProcessed, ProcessingParameter)) == NullDereferenced
  {
  }

  /** As written, a measure's configuration is read as a setup configuration. */
  lemma MeasureReadAsSetupAsWritten(m: Machine, c: MeasureConfig)
    requires m.state in {Ready, CaptureDone}
    ensures Target(m.state, CmdMeasure, true).Some?
    ensures DebugSetupAsWritten(Passed(m.state, CmdMeasure, MeasureParameter(c))) == Reinterpreted
  {
  }

  /**
   * Corrected, with each entry point passing its own configuration: an
   * accepted transition takes a debug setup exactly when it is a setup, and
   * that setup is the one given.
   */
  lemma DebugSetupOnlyFromSetup(m: Machine, e: Event, p: Parameter)
    requires Target(m.state, e, true).Some? && Fits(e, p)
    ensures DebugSetupCorrected(Passed(m.state, e, p)).Some? <==> e == CmdSetup
    ensures e == CmdSetup ==> DebugSetupCorrected(Passed(m.state, e, p)) == Some(p.setup)
  {
  }

  /** The corrected setup agrees with the as-written one wherever that one is defined behaviour on a setup. */
  lemma DebugSetupAgrees(p: Parameter, c: SetupConfig)
    ensures DebugSetupAsWritten(p) == Copied(c) <==> DebugSetupCorrected(p) == Some(c)
  {
  }

  class Scope {
    var state: State
    var previous: State
    var debugMode: bool
    /** The requests sent to the worker, in order. */
    var requests: seq<Request>
    /** The last setup configuration stored in the configuration file. */
    var storedSetup: Option<SetupConfig>
    /** The last measure configuration stored in the configuration file. */
    var storedMeasure: Option<MeasureConfig>
    /** What each debug-mode ChangeState did with its parameter, in order. */
    var debugSetups: seq<DebugSetup>

    constructor (debug: bool)
      ensures state == Undefined && previous == Undefined && debugMode == debug
      ensures requests == [] && storedSetup == None && storedMeasure == None && debugSetups == []
    {
      state := Undefined;
      previous := Undefined;
      debugMode := debug;
      requests := [];
      storedSetup := None;
      storedMeasure := None;
      debugSetups := [];
    }

    /** `Start()`: only an Undefined machine starts its thread, whose `run()` enters Idle through `ChangeState(Idle)` with no parameter. */
    method Start()
      modifies this`state, this`previous, this`debugSetups
      ensures old(state) == Undefined ==>
        && Machine(state, previous) == ChangeState(Machine(old(state), old(previous)), Idle, C.Ok).machine
        && state == Idle && previous == Undefined
        && debugSetups == old(debugSetups) + DebugLog(debugMode, NoParameter)
      ensures old(state) != Undefined ==>
        state == old(state) && previous == old(previous) && debugSetups == old(debugSetups)
    {
      if state == Undefined {
        var o := ChangeState(Machine(state, previous), Idle, C.Ok);
        state, previous := o.machine.state, o.machine.previous;
        debugSetups := debugSetups + DebugLog(debugMode, NoParameter);
      }
    }

    /** `ProcessStateMachine(event, parameter)`. */
    method ProcessStateMachine(e: Event, result: C.Error, p: Parameter) returns (err: C.Error)
      modifies this`state, this`previous, this`requests, this`debugSetups
      ensures var o := Step(Machine(old(state), old(previous)), e, debugMode, result);
        && Machine(state, previous) == o.machine && err == o.error
        && requests == old(requests) + (if o.request.Some? then [o.request.value] else [])
      ensures debugSetups == old(debugSetups) +
        (if Target(old(state), e, debugMode).Some? then DebugLog(debugMode, Passed(old(state), e, p)) else [])
    {
      if Target(state, e, debugMode).Some? {
        debugSetups := debugSetups + DebugLog(debugMode, Passed(state, e, p));
      }
      var o := Step(Machine(state, previous), e, debugMode, result);
      state, previous := o.machine.state, o.machine.previous;
      if o.request.Some? {
        requests := requests + [o.request.value];
      }
      err := o.error;
    }

    /** `on_worker_jobDone`: `ChangeState(mStatePrevious)`, with no parameter. */
    method OnWorkerJobDone()
      modifies this`state, this`previous, this`debugSetups
      ensures Machine(state, previous) == JobDone(Machine(old(state), old(previous)))
      ensures debugSetups == old(debugSetups) + DebugLog(debugMode, NoParameter)
    {
      var m := JobDone(Machine(state, previous));
      state, previous := m.state, m.previous;
      debugSetups := debugSetups + DebugLog(debugMode, NoParameter);
    }

    /**
     * `CmdSetup`: a configuration that passes the check as written is stored,
     * then handed to the state machine; Nd_Invalid itself passes.
     */
    method CmdSetupCall(config: SetupConfig, result: C.Error) returns (err: C.Error)
      modifies this`state, this`previous, this`requests, this`storedSetup, this`debugSetups
      ensures SetupArgsAsWritten(config.iris, config.filter, config.nd) != C.Ok ==>
        err == C.InvalidParameter && state == old(state) && previous == old(previous)
        && storedSetup == old(storedSetup) && requests == old(requests) && debugSetups == old(debugSetups)
      ensures SetupArgsAsWritten(config.iris, config.filter, config.nd) == C.Ok ==>
        var o := Step(Machine(old(state), old(previous)), CmdSetup, debugMode, result);
        && storedSetup == Some(config) && Machine(state, previous) == o.machine && err == o.error
        && requests == old(requests)
        && debugSetups == old(debugSetups) +
             (if Target(old(state), CmdSetup, debugMode).Some? then DebugLog(debugMode, SetupParameter(config)) else [])
    {
      err := SetupArgsAsWritten(config.iris, config.filter, config.nd);
      if err == C.Ok {
        storedSetup := Some(config);
        err := ProcessStateMachine(CmdSetup, result, SetupParameter(config));
      }
    }

    method CmdSetupStatus(statusResult: C.Error) returns (err: C.Error)
      ensures err == if SetupStatusAllowed(state) then statusResult else C.InvalidState
    {
      err := if SetupStatusAllowed(state) then statusResult else C.InvalidState;
    }

    /** `CmdMeasure`: invalid arguments are refused before the state machine is touched; valid ones are stored first. */
    method CmdMeasureCall(config: MeasureConfig, result: C.Error) returns (err: C.Error)
      modifies this`state, this`previous, this`requests, this`storedMeasure, this`debugSetups
      ensures MeasureArgs(config.exposureTimeUs, config.nbAcquisition) != C.Ok ==>
        err == C.InvalidParameter && state == old(state) && previous == old(previous) && requests == old(requests)
        && storedMeasure == old(storedMeasure) && debugSetups == old(debugSetups)
      ensures MeasureArgs(config.exposureTimeUs, config.nbAcquisition) == C.Ok ==>
        var o := Step(Machine(old(state), old(previous)), CmdMeasure, debugMode, result);
        && storedMeasure == Some(config) && Machine(state, previous) == o.machine && err == o.error
        && requests == old(requests)
        && debugSetups == old(debugSetups) +
             (if Target(old(state), CmdMeasure, debugMode).Some? then DebugLog(debugMode, MeasureParameter(config)) else [])
    {
      err := MeasureArgs(config.exposureTimeUs, config.nbAcquisition);
      if err == C.Ok {
        storedMeasure := Some(config);
        err := ProcessStateMachine(CmdMeasure, result, MeasureParameter(config));
      }
    }
  }
}
