/*
 * The test application's controller: from Idle it starts a reset or one of
 * seven tests on its worker, and comes back to Idle when the worker reports
 * the job done.
 */
module TestAppController {
  import C = Common

  /** The seven tests; each has its own state, start event and worker request. */
  datatype Test = Test1 | Test2 | TestSetup | ProcessRawData | TestMeasureAE | TestCapture | TestCaptureSequence

  datatype State = Undefined | Idle | Error | Resetting | Running(test: Test)

  datatype Event = CmdReset | CmdResetDone | StartTest(test: Test) | TestDone | Error

  datatype Request = ResetRequest | TestRequest(test: Test)

  datatype Option<T> = None | Some(value: T)

  /** The request `ChangeState` sends on entering a state. */
  function EntryRequest(s: State): Option<Request>
  {
    match s
    case Resetting => Some(ResetRequest)
    case Running(t) => Some(TestRequest(t))
    case _ => None
  }

  function Target(s: State, e: Event): Option<State>
  {
    match s
    case Idle =>
      (match e
       case CmdReset => Some(Resetting)
       case StartTest(t) => Some(Running(t))
       case _ => None)
    case Running(_) =>
      if e == TestDone then Some(Idle) else if e == Event.Error then Some(State.Error) else None
    case Resetting => if e == CmdResetDone then Some(Idle) else None
    case _ => None
  }

  datatype Outcome = Outcome(state: State, error: C.Error, request: Option<Request>)

  /** `ProcessStateMachine`: anything but an accepted event is reported as InvalidState. */
  function Step(s: State, e: Event): (o: Outcome)
    ensures o.error == C.Ok <==> Target(s, e).Some?
    ensures o.error != C.Ok ==> o == Outcome(s, C.InvalidState, None)
    ensures o.error == C.Ok ==> o.state == Target(s, e).value && o.request == EntryRequest(o.state)
  {
    match Target(s, e)
    case None => Outcome(s, C.InvalidState, None)
    case Some(t) => Outcome(t, C.Ok, EntryRequest(t))
  }

  /** `on_worker_jobDone`: Ok and Aborted report the job's own done event, any other error reports TestDone. */
  function JobDoneEvent(request: Request, error: C.Error): (e: Event)
    ensures error != C.Ok && error != C.Aborted ==> e == TestDone
    ensures request.TestRequest? ==> e == TestDone
    ensures request == ResetRequest && (error == C.Ok || error == C.Aborted) ==> e == CmdResetDone
  {
    if error == C.Ok || error == C.Aborted then
      (if request == ResetRequest then CmdResetDone else TestDone)
    else TestDone
  }

  /** A test ends in Idle whatever its result. */
  lemma TestAlwaysReturnsToIdle(t: Test, error: C.Error)
    ensures Step(Running(t), JobDoneEvent(TestRequest(t), error)).state == Idle
  {
  }

  /** A reset that fails is reported as TestDone, which Resetting does not handle: the controller stays in Resetting. */
  lemma FailedResetStaysResetting(error: C.Error)
    requires error != C.Ok && error != C.Aborted
    ensures Step(Resetting, JobDoneEvent(ResetRequest, error)) == Outcome(Resetting, C.InvalidState, None)
  {
  }

  /** Tests and resets start only from Idle, one at a time. */
  lemma StartsOnlyFromIdle(s: State, e: Event)
    requires e.StartTest? || e == CmdReset
    ensures Target(s, e).Some? <==> s == Idle
  {
  }

  /** The Error state has no way out. */
  lemma ErrorIsFinal(e: Event)
    ensures Target(State.Error, e).None?
  {
  }

  class Controller {
    var state: State
    var requests: seq<Request>

    constructor ()
      ensures state == Undefined && requests == []
    {
      state := Undefined;
      requests := [];
    }

    /** `Start()`: only an Undefined machine starts its thread, whose `run()` enters Idle. */
    method Start()
      modifies this`state
      ensures state == if old(state) == Undefined then Idle else old(state)
    {
      if state == Undefined {
        state := Idle;
      }
    }

    method ProcessStateMachine(e: Event) returns (err: C.Error)
      modifies this`state, this`requests
      ensures var o := Step(old(state), e);
        state == o.state && err == o.error
        && requests == old(requests) + (if o.request.Some? then [o.request.value] else [])
    {
      var o := Step(state, e);
      state := o.state;
      if o.request.Some? {
        requests := requests + [o.request.value];
      }
      err := o.error;
    }

    method OnWorkerJobDone(request: Request, error: C.Error)
      modifies this`state, this`requests
      ensures state == Step(old(state), JobDoneEvent(request, error)).state
      ensures requests == old(requests)
    {
      var _ := ProcessStateMachine(JobDoneEvent(request, error));
    }
  }
}
