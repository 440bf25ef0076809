/*
 * ConoscopeApp: the top-level event-driven state machine of the Conoscope
 * library. An event is accepted or not depending on the current state; an
 * accepted event enters a processing state whose command runs at once and
 * moves the machine on according to the command's result. Capture sequences
 * and auto-exposure measures run on a worker and end through its job-done
 * notification.
 *
 * The commands of ConoscopeAppProcess and the worker are oracles: `result`
 * is what the command entered by an event returns, `cancelResult` what the
 * worker answers to a cancel request.
 */
module ConoscopeAppSm {
  import C = Common
  import Lower = ConoscopeSm

  datatype State =
    | Undefined | Idle | Opened | Ready | CaptureDone
    | CmdOpenProcessing | CmdSetupProcessing | CmdMeasureProcessing | CmdExportRawProcessing
    | CmdExportProcessedProcessing | CmdCloseProcessing | CmdResetProcessing
    | CmdCfgFileWriteProcessing | CmdCfgFileReadProcessing
    | CmdCapturingSequence | CmdMeasuringAE | Error

  datatype Event =
    | CmdOpen | CmdSetup | CmdMeasure | CmdExportRaw | CmdExportProcessed | CmdClose | CmdReset
    | CmdCfgFileWrite | CmdCfgFileRead | CmdCfgFileStatus
    | CmdCaptureSequence | CmdCaptureSequenceCancel | CmdCaptureSequenceDone
    | CmdMeasureAE | CmdMeasureAECancel | CmdMeasureAEDone | Error

  /** What a step asks of the worker thread. */
  datatype WorkerCall = NoCall | RequestCaptureSequence | RequestMeasureAE | CancelCaptureSequence | CancelMeasureAE

  /** `mState` and `mStatePrevious`. */
  datatype Machine = Machine(state: State, previous: State)

  datatype Outcome = Outcome(machine: Machine, error: C.Error, call: WorkerCall)

  /** The state `ProcessStateMachine` hands to `ChangeState` for an event, if it accepts it. */
  function Target(s: State, e: Event, debugMode: bool): Option<State>
  {
    match s
    case Idle =>
      if e == CmdOpen then Some(CmdOpenProcessing)
      else if e == CmdReset then Some(CmdResetProcessing)
      else if e == CmdExportProcessed && debugMode then Some(CmdExportProcessedProcessing)
      else None
    case Opened =>
      if e == CmdSetup then Some(CmdSetupProcessing)
      else if e == CmdClose then Some(CmdCloseProcessing)
      else if e == CmdReset then Some(CmdResetProcessing)
      else if e == CmdCfgFileWrite then Some(CmdCfgFileWriteProcessing)
      else if e == CmdCfgFileRead then Some(CmdCfgFileReadProcessing)
      else if e == CmdCaptureSequence then Some(CmdCapturingSequence)
      else None
    case Ready =>
      if e == CmdSetup then Some(CmdSetupProcessing)
      else if e == CmdMeasure then Some(CmdMeasureProcessing)
      else if e == CmdClose then Some(CmdCloseProcessing)
      else if e == CmdReset then Some(CmdResetProcessing)
      else if e == CmdCfgFileWrite then Some(CmdCfgFileWriteProcessing)
      else if e == CmdCfgFileRead then Some(CmdCfgFileReadProcessing)
      else if e == CmdCaptureSequence then Some(CmdCapturingSequence)
      else if e == CmdMeasureAE then Some(CmdMeasuringAE)
      else None
    case CaptureDone =>
      if e == CmdSetup then Some(CmdSetupProcessing)
      else if e == CmdMeasure then Some(CmdMeasureProcessing)
      else if e == CmdExportRaw then Some(CmdExportRawProcessing)
      else if e == CmdExportProcessed then Some(CmdExportProcessedProcessing)
      else if e == CmdClose then Some(CmdCloseProcessing)
      else if e == CmdReset then Some(CmdResetProcessing)
      else if e == CmdCaptureSequence then Some(CmdCapturingSequence)
      else if e == CmdMeasureAE then Some(CmdMeasuringAE)
      else None
    case CmdCapturingSequence =>
      if e == CmdCaptureSequenceDone then Some(Opened) else None
    case Error =>
      if e == CmdClose then Some(CmdCloseProcessing)
      else if e == CmdReset then Some(CmdResetProcessing)
      else None
    case CmdMeasuringAE =>
      if e == CmdMeasureAEDone then Some(CaptureDone) else None
    case _ => None
  }

  /** The two events that are answered without a state change. */
  predicate IsCancel(s: State, e: Event)
  {
    (s == CmdCapturingSequence && e == CmdCaptureSequenceCancel) || (s == CmdMeasuringAE && e == CmdMeasureAECancel)
  }

  /** Where a processing state leads: `ok` on an Ok result, `failed` otherwise. */
  function After(ok: State, failed: State, result: C.Error): State
  {
    if result == C.Ok then ok else failed
  }

  /**
   * `ChangeState(target)`: the previous state is recorded, the target is
   * entered and, for a processing state, its command's `result` moves it on.
   * The worker is asked for a job exactly when its state is entered; that
   * request comes with the reset of the job's status (see `ResetStatus`).
   */
  function ChangeState(m: Machine, target: State, result: C.Error): (o: Outcome)
    ensures o.machine.previous == m.state
    ensures o.call == RequestCaptureSequence <==> target == CmdCapturingSequence
    ensures o.call == RequestMeasureAE <==> target == CmdMeasuringAE
    ensures o.call != CancelCaptureSequence && o.call != CancelMeasureAE
  {
    var prev := m.state;
    match target
    case CmdOpenProcessing => Outcome(Machine(After(Opened, State.Error, result), prev), result, NoCall)
    case CmdSetupProcessing => Outcome(Machine(After(Ready, State.Error, result), prev), result, NoCall)
    case CmdMeasureProcessing =>
      var next := if result == C.Ok then CaptureDone else if result == C.InvalidConfiguration then Ready else State.Error;
      Outcome(Machine(next, prev), result, NoCall)
    case CmdExportRawProcessing => Outcome(Machine(After(CaptureDone, State.Error, result), prev), result, NoCall)
    case CmdExportProcessedProcessing => Outcome(Machine(CaptureDone, prev), result, NoCall)
    case CmdCloseProcessing => Outcome(Machine(After(Idle, State.Error, result), prev), result, NoCall)
    case CmdResetProcessing => Outcome(Machine(After(Opened, State.Error, result), prev), result, NoCall)
    case CmdCfgFileWriteProcessing => Outcome(Machine(After(prev, State.Error, result), prev), result, NoCall)
    case CmdCfgFileReadProcessing => Outcome(Machine(After(prev, State.Error, result), prev), result, NoCall)
    case CmdCapturingSequence => Outcome(Machine(target, prev), C.Ok, RequestCaptureSequence)
    case CmdMeasuringAE => Outcome(Machine(target, prev), C.Ok, RequestMeasureAE)
    case CaptureDone => Outcome(Machine(target, prev), C.Ok, NoCall)
    case Opened => Outcome(Machine(target, prev), C.Ok, NoCall)
    case Idle => Outcome(Machine(target, prev), C.Ok, NoCall)
    case Undefined => Outcome(Machine(target, prev), C.Ok, NoCall)
    case _ => Outcome(Machine(target, prev), C.Failed, NoCall)
  }

  /** `ProcessStateMachine(event)`. */
  function Step(m: Machine, e: Event, debugMode: bool, result: C.Error, cancelResult: C.Error): Outcome
  {
    if m.state == CmdCapturingSequence && e == CmdCaptureSequenceCancel then Outcome(m, C.Ok, CancelCaptureSequence)
    else if m.state == CmdMeasuringAE && e == CmdMeasureAECancel then Outcome(m, cancelResult, CancelMeasureAE)
    else match Target(m.state, e, debugMode)
      case None => Outcome(m, C.InvalidState, NoCall)
      case Some(t) => ChangeState(m, t, result)
  }

  datatype Option<T> = None | Some(value: T)

  /** An event the current state does not handle is refused with InvalidState and changes nothing. */
  lemma UnhandledRefused(m: Machine, e: Event, debugMode: bool, result: C.Error, cancelResult: C.Error)
    requires Target(m.state, e, debugMode).None? && !IsCancel(m.state, e)
    ensures Step(m, e, debugMode, result, cancelResult) == Outcome(m, C.InvalidState, NoCall)
  {
  }

  /** When no command itself answers InvalidState, InvalidState means exactly "not handled here". */
  lemma InvalidStateIffUnhandled(m: Machine, e: Event, debugMode: bool, result: C.Error, cancelResult: C.Error)
    requires result != C.InvalidState && cancelResult != C.InvalidState
    ensures Step(m, e, debugMode, result, cancelResult).error == C.InvalidState <==>
      (Target(m.state, e, debugMode).None? && !IsCancel(m.state, e))
  {
  }

  /** Measure is accepted only from Ready or CaptureDone. */
  lemma MeasureOnlyWhenReady(s: State, debugMode: bool)
    ensures Target(s, CmdMeasure, debugMode).Some? <==> s in {Ready, CaptureDone}
  {
  }

  /** ExportRaw is accepted only from CaptureDone. */
  lemma ExportRawOnlyAfterCapture(s: State, debugMode: bool)
    ensures Target(s, CmdExportRaw, debugMode).Some? <==> s == CaptureDone
  {
  }

  /** The Error state accepts only Close and Reset. */
  lemma ErrorAcceptsCloseAndReset(e: Event, debugMode: bool)
    ensures Target(State.Error, e, debugMode).Some? <==> e in {CmdClose, CmdReset}
    ensures !IsCancel(State.Error, e)
  {
  }

  /** After Open the machine is Opened on Ok and in Error otherwise; the command's result is returned. */
  lemma OpenOutcome(previous: State, result: C.Error, cancelResult: C.Error, debugMode: bool)
    ensures var o := Step(Machine(Idle, previous), CmdOpen, debugMode, result, cancelResult);
      o.machine == Machine(if result == C.Ok then Opened else State.Error, Idle) && o.error == result
  {
  }

  /** After Measure: CaptureDone on Ok, back to Ready on InvalidConfiguration, Error otherwise. */
  lemma MeasureOutcome(m: Machine, result: C.Error, cancelResult: C.Error, debugMode: bool)
    requires m.state in {Ready, CaptureDone}
    ensures var next := Step(m, CmdMeasure, debugMode, result, cancelResult).machine.state;
      && (result == C.Ok ==> next == CaptureDone)
      && (result == C.InvalidConfiguration ==> next == Ready)
      && (result != C.Ok && result != C.InvalidConfiguration ==> next == State.Error)
  {
  }

  /** ExportProcessed always comes back to CaptureDone, whatever the export returns. */
  lemma ExportProcessedBackToCaptureDone(m: Machine, result: C.Error, cancelResult: C.Error, debugMode: bool)
    requires Target(m.state, CmdExportProcessed, debugMode).Some?
    ensures Step(m, CmdExportProcessed, debugMode, result, cancelResult).machine.state == CaptureDone
  {
  }

  /** A successful cfg-file read or write returns to the state it started from. */
  lemma CfgFileReturnsToStart(m: Machine, e: Event, cancelResult: C.Error, debugMode: bool)
    requires e in {CmdCfgFileWrite, CmdCfgFileRead} && m.state in {Opened, Ready}
    ensures Step(m, e, debugMode, C.Ok, cancelResult).machine.state == m.state
  {
  }

  /** The states the machine can rest in between two calls (no command is running). */
  predicate Settled(s: State)
  {
    s.Undefined? || s.Idle? || s.Opened? || s.Ready? || s.CaptureDone? || s.CmdCapturingSequence? || s.CmdMeasuringAE? || s.Error?
  }

  /** Every command's processing state is left before `ProcessStateMachine` returns. */
  lemma StepSettles(m: Machine, e: Event, debugMode: bool, result: C.Error, cancelResult: C.Error)
    requires Settled(m.state)
    ensures Settled(Step(m, e, debugMode, result, cancelResult).machine.state)
  {
    if !IsCancel(m.state, e) {
      match Target(m.state, e, debugMode)
      case None =>
      case Some(t) => ChangeStateSettles(m, t, result);
    }
  }

  /** Entering any target from a settled state ends in a settled state. */
  lemma ChangeStateSettles(m: Machine, target: State, result: C.Error)
    requires Settled(m.state)
    ensures Settled(ChangeState(m, target, result).machine.state)
  {
  }

  /** `CmdSetupStatus` queries the process only in these states. */
  predicate SetupStatusAllowed(s: State)
  {
    s in {Opened, Ready, CaptureDone, CmdSetupProcessing, CmdMeasureProcessing, CmdExportRawProcessing, CmdExportProcessedProcessing}
  }

  const ExpoDeltaUs: int := 100

  /** `CmdMeasureAE`'s clamp of the exposure to the auto-exposure bounds. */
  function ClampAe(exposureUs: int, aeMinUs: int, aeMaxUs: int): int
  {
    if exposureUs >= aeMaxUs then aeMaxUs - ExpoDeltaUs
    else if exposureUs <= aeMinUs then aeMinUs + ExpoDeltaUs
    else exposureUs
  }

  /** With bounds more than 200 µs apart the clamped exposure lies strictly inside them. */
  lemma ClampAeInside(exposureUs: int, aeMinUs: int, aeMaxUs: int)
    requires aeMinUs + 2 * ExpoDeltaUs < aeMaxUs
    ensures aeMinUs < ClampAe(exposureUs, aeMinUs, aeMaxUs) < aeMaxUs
    ensures aeMinUs < exposureUs < aeMaxUs ==> ClampAe(exposureUs, aeMinUs, aeMaxUs) == exposureUs
  {
  }

  /** The exposure the worker receives, as written: the configuration is copied to the worker before the clamp. */
  function WorkerExposureAsWritten(exposureUs: int, aeMinUs: int, aeMaxUs: int): int
  {
    exposureUs
  }

  /** The exposure the worker receives once the clamp is applied before the copy. */
  function WorkerExposure(exposureUs: int, aeMinUs: int, aeMaxUs: int): int
  {
    ClampAe(exposureUs, aeMinUs, aeMaxUs)
  }

  /** As written, an exposure above the bound reaches the worker unclamped. */
  lemma ClampDoesNotReachWorker()
    ensures WorkerExposureAsWritten(990000, 10, 985000) == 990000
    ensures WorkerExposureAsWritten(990000, 10, 985000) >= 985000
    ensures WorkerExposure(990000, 10, 985000) == 984900
  {
  }

  /** The worker always receives an exposure strictly inside bounds more than 200 µs apart. */
  lemma WorkerExposureInside(exposureUs: int, aeMinUs: int, aeMaxUs: int)
    requires aeMinUs + 2 * ExpoDeltaUs < aeMaxUs
    ensures aeMinUs < WorkerExposure(exposureUs, aeMinUs, aeMaxUs) < aeMaxUs
  {
    ClampAeInside(exposureUs, aeMinUs, aeMaxUs);
  }

  /**
   * The worker's progress state (MeasureStatus_t / CaptureSequenceStatus_t
   * State_t); the capture sequence's Setup, WaitForTemp, Measure and
   * AutoExpo steps are all `Process` here.
   */
  datatype WorkerState = NotStarted | Process | Done | WorkerError | Cancel

  /**
   * The status of the job `job` asks for after a step that made the worker
   * call `call`: entering CmdCapturingSequence or CmdMeasuringAE resets that
   * job's status to NotStarted before the request is sent (lines 287-288 and
   * 294-295); any other step leaves it as it was.
   */
  function ResetStatus(call: WorkerCall, job: WorkerCall, status: WorkerState): (r: WorkerState)
    ensures call == job && job in {RequestCaptureSequence, RequestMeasureAE} ==> r == NotStarted
    ensures call != job ==> r == status
  {
    if call == job && (job == RequestCaptureSequence || job == RequestMeasureAE) then NotStarted else status
  }

  /**
   * With an external core loop a status read settles the machine only on a
   * Done status. Right after a sequence or measure is accepted its status
   * has been reset, so a Done left over from the previous job cannot
   * settle the new one.
   */
  lemma AcceptedJobStartsNotStarted(m: Machine, e: Event, debugMode: bool, result: C.Error, cancelResult: C.Error, stale: WorkerState)
    requires e in {CmdCaptureSequence, CmdMeasureAE} && Target(m.state, e, debugMode).Some?
    ensures var o := Step(m, e, debugMode, result, cancelResult);
      var job := if e == CmdCaptureSequence then RequestCaptureSequence else RequestMeasureAE;
      && o.call == job
      && ResetStatus(o.call, job, stale) == NotStarted
      && o.machine.state == (if e == CmdCaptureSequence then CmdCapturingSequence else CmdMeasuringAE)
  {
    assert !IsCancel(m.state, e);
  }

  /** Events the library raises through its resource callback. */
  datatype Notification = CaptureSequenceDone | CaptureSequenceError | MeasureAEDone | MeasureAEError

  /** `on_worker_jobDone`: the state a finished worker job leaves, and the notification raised. */
  function JobDone(s: State, captureSequence: bool, result: C.Error): (State, Notification)
  {
    if captureSequence then
      if result == C.Ok then (Opened, CaptureSequenceDone) else (State.Error, CaptureSequenceError)
    else
      if result == C.Ok then (CaptureDone, MeasureAEDone) else (State.Error, MeasureAEError)
  }

  class App {
    var state: State
    var previous: State
    var debugMode: bool
    /** Requests sent to the worker, in order. */
    var workerCalls: seq<WorkerCall>
    /** Notifications raised, in order. */
    var notifications: seq<Notification>
    /** The exposure of `mMeasureConfig`, the worker's auto-exposure measure configuration. */
    var workerExposureUs: int
    /** AEMinExpoTimeUs / AEMaxExpoTimeUs of the worker's settings. */
    var aeMinUs: int
    var aeMaxUs: int
    var externalCoreLoop: bool
    /** The `state` of the worker's `mCaptureSequenceStatus` and `mMeasureStatus`, shared with the worker thread. */
    var sequenceStatus: WorkerState
    var measureStatus: WorkerState

    constructor (debug: bool, aeMin: int, aeMax: int)
      ensures state == Undefined && previous == Undefined && debugMode == debug
      ensures workerCalls == [] && notifications == [] && !externalCoreLoop
      ensures aeMinUs == aeMin && aeMaxUs == aeMax && workerExposureUs == 0
      ensures sequenceStatus == NotStarted && measureStatus == NotStarted
    {
      state := Undefined;
      previous := Undefined;
      debugMode := debug;
      workerCalls := [];
      notifications := [];
      workerExposureUs := 0;
      aeMinUs := aeMin;
      aeMaxUs := aeMax;
      externalCoreLoop := false;
      sequenceStatus, measureStatus := NotStarted, NotStarted;
    }

    /** `run()`: the thread starts by entering Idle. */
    method Start()
      modifies this`state, this`previous
      ensures old(state) == Undefined ==> state == Idle && previous == Undefined
      ensures old(state) != Undefined ==> state == old(state) && previous == old(previous)
    {
      if state == Undefined {
        var o := ChangeState(Machine(state, previous), Idle, C.Ok);
        state, previous := o.machine.state, o.machine.previous;
      }
    }

    method SetExternalCoreLoop()
      modifies this`externalCoreLoop
      ensures externalCoreLoop
    {
      externalCoreLoop := true;
    }

    method ProcessStateMachine(e: Event, result: C.Error, cancelResult: C.Error) returns (err: C.Error)
      modifies this`state, this`previous, this`workerCalls, this`sequenceStatus, this`measureStatus
      ensures var o := Step(Machine(old(state), old(previous)), e, debugMode, result, cancelResult);
        && Machine(state, previous) == o.machine && err == o.error
        && workerCalls == old(workerCalls) + (if o.call == NoCall then [] else [o.call])
        && sequenceStatus == ResetStatus(o.call, RequestCaptureSequence, old(sequenceStatus))
        && measureStatus == ResetStatus(o.call, RequestMeasureAE, old(measureStatus))
    {
      var o := Step(Machine(state, previous), e, debugMode, result, cancelResult);
      state, previous := o.machine.state, o.machine.previous;
      sequenceStatus := ResetStatus(o.call, RequestCaptureSequence, sequenceStatus);
      measureStatus := ResetStatus(o.call, RequestMeasureAE, measureStatus);
      if o.call != NoCall {
        workerCalls := workerCalls + [o.call];
      }
      err := o.error;
    }

    /** `CmdMeasure`: invalid arguments are refused before the state machine is touched. */
    method CmdMeasureCall(exposureTimeUs: int, nbAcquisition: int, result: C.Error) returns (err: C.Error)
      modifies this`state, this`previous, this`workerCalls, this`sequenceStatus, this`measureStatus
      ensures sequenceStatus == old(sequenceStatus) && measureStatus == old(measureStatus)
      ensures Lower.MeasureArgs(exposureTimeUs, nbAcquisition) != C.Ok ==>
        err == C.InvalidParameter && state == old(state) && previous == old(previous) && workerCalls == old(workerCalls)
      ensures Lower.MeasureArgs(exposureTimeUs, nbAcquisition) == C.Ok ==>
        var o := Step(Machine(old(state), old(previous)), CmdMeasure, debugMode, result, C.Ok);
        && Machine(state, previous) == o.machine && err == o.error
        && workerCalls == old(workerCalls) + (if o.call == NoCall then [] else [o.call])
    {
      err := Lower.MeasureArgs(exposureTimeUs, nbAcquisition);
      if err == C.Ok {
        err := ProcessStateMachine(CmdMeasure, result, C.Ok);
      }
    }

    /**
     * `CmdMeasureAE`: the worker's configuration is copied before the clamp,
     * so the worker receives the exposure as given, and only the caller's
     * configuration (passed by reference, here `clamped`) is clamped.
     */
    method CmdMeasureAECall(exposureTimeUs: int) returns (err: C.Error, clamped: int)
      modifies this`state, this`previous, this`workerCalls, this`workerExposureUs, this`sequenceStatus, this`measureStatus
      ensures clamped == ClampAe(exposureTimeUs, aeMinUs, aeMaxUs)
      ensures workerExposureUs == WorkerExposureAsWritten(exposureTimeUs, aeMinUs, aeMaxUs) == exposureTimeUs
      ensures var o := Step(Machine(old(state), old(previous)), CmdMeasureAE, debugMode, C.Ok, C.Ok);
        && Machine(state, previous) == o.machine && err == o.error
        && workerCalls == old(workerCalls) + (if o.call == NoCall then [] else [o.call])
        && measureStatus == ResetStatus(o.call, RequestMeasureAE, old(measureStatus))
      ensures sequenceStatus == old(sequenceStatus)
    {
      workerExposureUs := exposureTimeUs;
      clamped := ClampAe(exposureTimeUs, aeMinUs, aeMaxUs);
      err := ProcessStateMachine(CmdMeasureAE, C.Ok, C.Ok);
    }

    /** `CmdSetupStatus`: only reads the process status, and only in the listed states. */
    method CmdSetupStatus(statusResult: C.Error) returns (err: C.Error)
      ensures err == if SetupStatusAllowed(state) then statusResult else C.InvalidState
    {
      err := if SetupStatusAllowed(state) then statusResult else C.InvalidState;
    }

    /** `CmdExportRaw` into a caller buffer: only in CaptureDone. */
    method CmdExportRawBuffer(exportResult: C.Error) returns (err: C.Error)
      ensures err == if state == CaptureDone then exportResult else C.InvalidState
    {
      err := C.InvalidState;
      if state == CaptureDone {
        err := exportResult;
      }
    }

    /**
     * `CmdExportProcessed` into a caller buffer: it exports only in
     * CaptureDone, but starts from Ok, so any other state answers Ok.
     */
    method CmdExportProcessedBuffer(exportResult: C.Error) returns (err: C.Error)
      ensures err == ExportProcessedBufferAsWritten(state, exportResult)
      ensures state == CaptureDone ==> err == exportResult
      ensures state != CaptureDone ==> err == C.Ok
    {
      err := C.Ok;
      if state == CaptureDone {
        err := exportResult;
      }
    }

    /** `on_worker_jobDone`; the state is set directly, the previous state is left as it was. */
    method OnWorkerJobDone(captureSequence: bool, result: C.Error)
      modifies this`state, this`notifications
      ensures (state, notifications) == (JobDone(old(state), captureSequence, result).0,
                                         old(notifications) + [JobDone(old(state), captureSequence, result).1])
    {
      var (s, n) := JobDone(state, captureSequence, result);
      state := s;
      notifications := notifications + [n];
    }

    /**
     * The worker thread's store into a job's shared status
     * (ConoscopeAppWorker.cpp:364-376, 536-548 and 1257-1272).
     */
    method WorkerReport(captureSequence: bool, status: WorkerState)
      modifies this`sequenceStatus, this`measureStatus
      ensures sequenceStatus == if captureSequence then status else old(sequenceStatus)
      ensures measureStatus == if captureSequence then old(measureStatus) else status
    {
      if captureSequence {
        sequenceStatus := status;
      } else {
        measureStatus := status;
      }
    }

    /**
     * `CmdCaptureSequenceStatus`: reads the worker's shared status; without
     * an external core loop a running sequence is reported in progress;
     * with one, a Done status settles the state.
     */
    method CmdCaptureSequenceStatus() returns (reported: WorkerState)
      modifies this`state
      ensures reported == if !externalCoreLoop && old(state) == CmdCapturingSequence then Process else sequenceStatus
      ensures state == if externalCoreLoop && sequenceStatus == Done then Opened else old(state)
    {
      var worker := sequenceStatus;
      reported := worker;
      if !externalCoreLoop {
        if state == CmdCapturingSequence {
          reported := Process;
        }
      } else if worker == Done {
        state := Opened;
      }
    }

    /** `CmdMeasureAEStatus`, the same rule for an auto-exposure measure. */
    method CmdMeasureAEStatus() returns (reported: WorkerState)
      modifies this`state
      ensures reported == if !externalCoreLoop && old(state) == CmdMeasuringAE then Process else measureStatus
      ensures state == if externalCoreLoop && measureStatus == Done then CaptureDone else old(state)
    {
      var worker := measureStatus;
      reported := worker;
      if !externalCoreLoop {
        if state == CmdMeasuringAE {
          reported := Process;
        }
      } else if worker == Done {
        state := CaptureDone;
      }
    }
  }

  /** The processed-buffer export as written: outside CaptureDone it answers Ok without exporting. */
  function ExportProcessedBufferAsWritten(s: State, exportResult: C.Error): C.Error
  {
    if s == CaptureDone then exportResult else C.Ok
  }

  function ExportProcessedBufferResult(s: State, exportResult: C.Error): (r: C.Error)
    ensures s != CaptureDone ==> r == C.InvalidState
    ensures s == CaptureDone ==> r == exportResult
  {
    if s == CaptureDone then exportResult else C.InvalidState
  }

  /** As written, a processed-buffer export requested from Ready reports success. */
  lemma ExportProcessedBufferOkOutsideCapture()
    ensures ExportProcessedBufferAsWritten(Ready, C.Failed) == C.Ok
    ensures ExportProcessedBufferResult(Ready, C.Failed) == C.InvalidState
  {
  }
}
