/*
 * TempMonitoring: the sensor-temperature regulation state machine. A set
 * temperature request is handed to a worker; its done, aborted or error
 * report moves the machine on, and the externally visible status
 * (TemperatureMonitoringState) follows the state.
 */
module TempMonitor {
  import C = Common

  datatype State = Undefined | Idle | CmdSetTemperatureProcessing | TemperatureSet | Aborted | Error

  /** TemperatureMonitoringState_t. */
  datatype Status = NotStarted | Processing | Locked | Aborted | Error

  datatype Event = CmdSetTemperature | CmdSetTemperatureDone | CmdSetTemperatureError | CmdSetTemperatureAborted

  /** `mState` and `mStatus`. */
  datatype Machine = Machine(state: State, status: Status)

  datatype Outcome = Outcome(machine: Machine, error: C.Error, requested: bool)

  /** `ChangeState(target)`: the status follows the state entered; Aborted falls through to Idle. */
  function ChangeState(m: Machine, target: State): Outcome
  {
    match target
    case CmdSetTemperatureProcessing => Outcome(Machine(target, Status.Processing), C.Ok, true)
    case TemperatureSet => Outcome(Machine(target, Locked), C.Ok, false)
    case Error => Outcome(Machine(target, Status.Error), C.Ok, false)
    case Aborted => Outcome(Machine(Idle, Status.Aborted), C.Ok, false)
    case _ => Outcome(Machine(target, m.status), C.Ok, false)
  }

  function Target(s: State, e: Event): Option<State>
  {
    match s
    case Idle => if e == CmdSetTemperature then Some(CmdSetTemperatureProcessing) else None
    case TemperatureSet => if e == CmdSetTemperature then Some(CmdSetTemperatureProcessing) else None
    case Error => if e == CmdSetTemperature then Some(CmdSetTemperatureProcessing) else None
    case CmdSetTemperatureProcessing =>
      if e == CmdSetTemperatureDone then Some(TemperatureSet)
      else if e == CmdSetTemperatureError then Some(State.Error)
      else if e == CmdSetTemperatureAborted then Some(State.Aborted)
      else None
    case _ => None
  }

  datatype Option<T> = None | Some(value: T)

  /** `ProcessStateMachine(event)`. */
  function Step(m: Machine, e: Event): Outcome
  {
    match Target(m.state, e)
    case None => Outcome(m, C.InvalidState, false)
    case Some(t) => ChangeState(m, t)
  }

  /** `on_worker_jobDone` for the set-temperature request. */
  function JobDoneEvent(error: C.Error): (e: Event)
    ensures e == CmdSetTemperatureDone <==> error == C.Ok
    ensures e == CmdSetTemperatureAborted <==> error == C.Aborted
  {
    if error == C.Ok then CmdSetTemperatureDone
    else if error == C.Aborted then CmdSetTemperatureAborted
    else CmdSetTemperatureError
  }

  /** `CmdReset` as written: outside a regulation the returned error is never assigned, so any value can come back. */
  function ResetAsWritten(m: Machine, indeterminate: C.Error): (Machine, C.Error)
  {
    if m.state == CmdSetTemperatureProcessing then (m, C.InvalidState)
    else (Machine(Idle, NotStarted), indeterminate)
  }

  /** `CmdReset`: refused while a regulation runs, otherwise back to Idle with the status cleared, reporting Ok. */
  function Reset(m: Machine): (r: (Machine, C.Error))
    ensures r.1 == C.Ok <==> m.state != CmdSetTemperatureProcessing
    ensures r.1 != C.Ok ==> r == (m, C.InvalidState)
    ensures r.1 == C.Ok ==> r.0 == Machine(Idle, NotStarted)
  {
    if m.state == CmdSetTemperatureProcessing then (m, C.InvalidState)
    else (Machine(Idle, NotStarted), C.Ok)
  }

  /** As written, a reset that did take place can report Failed. */
  lemma ResetCanReportFailure()
    ensures ResetAsWritten(Machine(Idle, Locked), C.Failed) == (Machine(Idle, NotStarted), C.Failed)
    ensures Reset(Machine(Idle, Locked)).1 == C.Ok
  {
  }

  /** The status says what the state is doing. */
  predicate Coherent(m: Machine)
  {
    && (m.state == CmdSetTemperatureProcessing <==> m.status == Status.Processing)
    && (m.state == TemperatureSet <==> m.status == Locked)
    && (m.state == State.Error <==> m.status == Status.Error)
    && m.state != State.Aborted
  }

  /** A set temperature is accepted exactly when no regulation is running. */
  lemma SetTemperatureAccepted(m: Machine)
    requires m.state != Undefined && m.state != State.Aborted
    ensures Step(m, CmdSetTemperature).error == C.Ok <==> m.state != CmdSetTemperatureProcessing
    ensures Step(m, CmdSetTemperature).error == C.Ok ==>
      Step(m, CmdSetTemperature).requested && Step(m, CmdSetTemperature).machine.status == Status.Processing
  {
  }

  /** How a running regulation ends, for every worker result. */
  lemma RegulationOutcome(m: Machine, error: C.Error)
    requires m.state == CmdSetTemperatureProcessing
    ensures var n := Step(m, JobDoneEvent(error)).machine;
      && (error == C.Ok ==> n == Machine(TemperatureSet, Locked))
      && (error == C.Aborted ==> n == Machine(Idle, Status.Aborted))
      && (error != C.Ok && error != C.Aborted ==> n == Machine(State.Error, Status.Error))
  {
  }

  lemma StepCoherent(m: Machine, e: Event)
    requires Coherent(m)
    ensures Coherent(Step(m, e).machine)
  {
  }

  lemma ResetCoherent(m: Machine)
    requires Coherent(m)
    ensures Coherent(Reset(m).0)
  {
  }

  /** An input to the monitor: a state-machine event or a `CmdReset` call. */
  datatype Input = Ev(event: Event) | ResetCall

  function Run(m: Machine, inputs: seq<Input>): Machine
    decreases |inputs|
  {
    if inputs == [] then m
    else
      var next := match inputs[0] case Ev(e) => Step(m, e).machine case ResetCall => Reset(m).0;
      Run(next, inputs[1..])
  }

  /** From the started machine, the status keeps following the state through any series of inputs. */
  lemma {:induction false} RunCoherent(m: Machine, inputs: seq<Input>)
    requires Coherent(m)
    ensures Coherent(Run(m, inputs))
    decreases |inputs|
  {
    if inputs != [] {
      match inputs[0]
      case Ev(e) => StepCoherent(m, e); RunCoherent(Step(m, e).machine, inputs[1..]);
      case ResetCall => ResetCoherent(m); RunCoherent(Reset(m).0, inputs[1..]);
    }
  }

  class Monitor {
    var state: State
    var status: Status
    /** `mCmdSetTemperatureParam`. */
    var targetTemperature: real
    var timeoutMs: int
    /** The set-temperature requests sent to the worker, as (temperature, timeout). */
    var requests: seq<(real, int)>

    constructor ()
      ensures state == Undefined && status == NotStarted && requests == []
      ensures targetTemperature == 0.0 && timeoutMs == 0
    {
      state := Undefined;
      status := NotStarted;
      targetTemperature := 0.0;
      timeoutMs := 0;
      requests := [];
    }

    /** `Start()`: only an Undefined machine starts its thread, whose `run()` enters Idle. */
    method Start()
      modifies this`state
      ensures state == if old(state) == Undefined then Idle else old(state)
    {
      if state == Undefined {
        var o := ChangeState(Machine(state, status), Idle);
        state := o.machine.state;
      }
    }

    method ProcessStateMachine(e: Event) returns (err: C.Error)
      modifies this`state, this`status, this`requests
      ensures var o := Step(Machine(old(state), old(status)), e);
        Machine(state, status) == o.machine && err == o.error
        && requests == old(requests) + (if o.requested then [(targetTemperature, timeoutMs)] else [])
    {
      var o := Step(Machine(state, status), e);
      state, status := o.machine.state, o.machine.status;
      if o.requested {
        requests := requests + [(targetTemperature, timeoutMs)];
      }
      err := o.error;
    }

    /** `CmdSetTemperature`: the target is recorded before the state machine decides, so it is kept even when refused. */
    method CmdSetTemperatureCall(temperature: real, timeout: int) returns (err: C.Error)
      modifies this`state, this`status, this`requests, this`targetTemperature, this`timeoutMs
      ensures targetTemperature == temperature && timeoutMs == timeout
      ensures var o := Step(Machine(old(state), old(status)), CmdSetTemperature);
        Machine(state, status) == o.machine && err == o.error
        && requests == old(requests) + (if o.requested then [(temperature, timeout)] else [])
    {
      targetTemperature, timeoutMs := temperature, timeout;
      err := ProcessStateMachine(CmdSetTemperature);
    }

    method OnWorkerJobDone(error: C.Error)
      modifies this`state, this`status, this`requests
      ensures Machine(state, status) == Step(Machine(old(state), old(status)), JobDoneEvent(error)).machine
      ensures requests == old(requests)
    {
      var _ := ProcessStateMachine(JobDoneEvent(error));
    }

    method CmdReset() returns (err: C.Error)
      modifies this`state, this`status
      ensures (Machine(state, status), err) == Reset(Machine(old(state), old(status)))
    {
      var r := Reset(Machine(state, status));
      state, status := r.0.state, r.0.status;
      err := r.1;
    }

    method GetTemperatureTarget() returns (t: real)
      ensures t == targetTemperature
    {
      t := targetTemperature;
    }

    method GetStatus() returns (s: Status)
      ensures s == status
    {
      s := status;
    }
  }
}
