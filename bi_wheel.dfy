/*
 * CDevices: the optical bi-wheel (an eight-slot wheel driven by an I2C
 * motor). `BiWheelGoto` checks the motor, then plans the move the shortest
 * way round the wheel and programs the motor. The motor's status register
 * and the position sensor are read through oracles.
 */
module BiWheel {
  import opened Common

  const NbOfPositions: int := 8
  const WaitDelayUnitMs: int := 750

  /** Motor status register values (CISGWMotor.h). */
  const MotorIdle: Byte := 0
  const MotorOperating: Byte := 0x20
  const MotorStatusBits: Byte := 0x70
  const MotorRetriesBits: Byte := 15

  /** `CDevices::Status_t`. */
  datatype GotoStatus = StatusDone | StatusProcessing | StatusError

  datatype Direction = Positive | Negative

  /** `BiWheelMotorBusy`: the status register says the motor is moving or failing. */
  predicate MotorBusy(status: Byte)
  {
    status == MotorOperating || status == MotorRetriesBits || status == MotorStatusBits
  }

  /** The direction `BiWheelGoto` selects for a signed distance. */
  function DirectionFor(distance: int): Direction
  {
    if distance > 0 then (if distance <= NbOfPositions / 2 then Positive else Negative)
    else (if distance >= -(NbOfPositions / 2) then Negative else Positive)
  }

  /** The number of slots travelled going the positive way round. */
  function PositiveSteps(from: int, to: int): int
  {
    (to - from) % NbOfPositions
  }

  /**
   * Between two slots of the wheel the chosen direction is the shortest way
   * round; half a turn away either way is as short, and the sign of the
   * index difference decides.
   */
  lemma ShortestWayRound(current: int, target: int)
    requires 1 <= current <= NbOfPositions && 1 <= target <= NbOfPositions && current != target
    ensures PositiveSteps(current, target) < NbOfPositions / 2 ==> DirectionFor(target - current) == Positive
    ensures PositiveSteps(current, target) > NbOfPositions / 2 ==> DirectionFor(target - current) == Negative
    ensures PositiveSteps(current, target) == NbOfPositions / 2 ==>
      (DirectionFor(target - current) == Positive <==> target > current)
  {
    var d := target - current;
    if d > 0 {
      assert PositiveSteps(current, target) == d;
    } else {
      assert PositiveSteps(current, target) == d + NbOfPositions;
    }
  }

  /** The move `BiWheelGoto` decides on. */
  datatype Plan = Refused | AlreadyThere | Move(direction: Direction, waitDelayMs: int)

  function PlanGoto(present: bool, motorStatus: Byte, index: Byte, current: Byte): (p: Plan)
    ensures p == Refused <==> !present || MotorBusy(motorStatus) || index < 1 || index > NbOfPositions
    ensures p == AlreadyThere <==> present && !MotorBusy(motorStatus) && 1 <= index <= NbOfPositions && index == current
    ensures p.Move? ==> p.waitDelayMs == WaitDelayUnitMs * (if index >= current then index - current else current - index)
    ensures p.Move? ==> p.direction == DirectionFor(index - current)
  {
    if !present || MotorBusy(motorStatus) || index < 1 || index > NbOfPositions then Refused
    else if index == current then AlreadyThere
    else
      var d := index - current;
      Move(DirectionFor(d), WaitDelayUnitMs * (if d > 0 then d else -d))
  }

  /** The motor programming of a move. */
  datatype MotorCommand =
    | SetMotorNumber(number: Byte) | SetEnabled(on: bool) | SetEventsSinkAddress(address: Byte) | SetDirection(direction: Direction)
    | SetStartupStepPeriod(p: int) | SetMinimumStepPeriod(p: int) | SetRampUpIncrement(i: int)
    | SetCount(n: int) | SetStatus(s: Byte) | SetPosition(index: Byte) | Search

  /**
   * `BiWheelSelect`: only wheel 0 or 1 is told to the motor; the sensor
   * boards' enable and sink programming goes to the sensor, not the motor,
   * and is not part of this trace.
   */
  function SelectCommands(motor: Byte): (r: seq<MotorCommand>)
    ensures r == [SetMotorNumber(motor)] <==> motor <= 1
    ensures motor > 1 <==> r == []
  {
    if motor == 0 || motor == 1 then [SetMotorNumber(motor)] else []
  }

  function MoveCommands(direction: Direction, index: Byte): seq<MotorCommand>
  {
    [SetEnabled(true), SetEventsSinkAddress(0), SetDirection(direction),
     SetStartupStepPeriod(10100), SetMinimumStepPeriod(1100), SetRampUpIncrement(1000),
     SetCount(4000), SetStatus(MotorIdle), SetPosition(index), Search]
  }

  /** `CurrentBiWheelStatus`: 0xFF stands for an absent wheel. */
  function CurrentStatus(present: bool, motorStatus: Byte): (s: Byte)
    ensures !present ==> s == 0xFF
    ensures present ==> s == motorStatus
  {
    if present then motorStatus else 0xFF
  }

  class Devices {
    var targetPosition: int
    var currentWheel: int
    /** Commands sent to the motor, in order: the wheel selection, then the move. */
    var motorCommands: seq<MotorCommand>

    constructor ()
      ensures targetPosition == 0 && currentWheel == 0 && motorCommands == []
    {
      targetPosition := 0;
      currentWheel := 0;
      motorCommands := [];
    }

    /**
     * `BiWheelGoto`. `waitIn` is the caller's delay variable, written only
     * when a move is started; `current` is what the position sensor reads.
     */
    method BiWheelGoto(motor: Byte, index: Byte, waitIn: int, present: bool, motorStatus: Byte, current: Byte)
      returns (status: GotoStatus, waitDelayMs: int)
      modifies this
      ensures PlanGoto(present, motorStatus, index, current) == Refused ==>
        status == StatusError && waitDelayMs == waitIn && motorCommands == old(motorCommands)
        && targetPosition == old(targetPosition) && currentWheel == old(currentWheel)
      ensures PlanGoto(present, motorStatus, index, current) == AlreadyThere ==>
        status == StatusDone && waitDelayMs == waitIn && motorCommands == old(motorCommands)
        && targetPosition == index && currentWheel == motor
      ensures PlanGoto(present, motorStatus, index, current).Move? ==>
        var p := PlanGoto(present, motorStatus, index, current);
        status == StatusProcessing && waitDelayMs == p.waitDelayMs
        && targetPosition == index && currentWheel == motor
        && motorCommands == old(motorCommands) + SelectCommands(motor) + MoveCommands(p.direction, index)
    {
      var p := PlanGoto(present, motorStatus, index, current);
      waitDelayMs := waitIn;
      match p
      case Refused =>
        status := StatusError;
      case AlreadyThere =>
        targetPosition, currentWheel := index, motor;
        status := StatusDone;
      case Move(dir, delay) =>
        targetPosition, currentWheel := index, motor;
        motorCommands := motorCommands + SelectCommands(motor) + MoveCommands(dir, index);
        waitDelayMs := delay;
        status := StatusProcessing;
    }
  }
}
