/** `PIDChassisController`: a chassis controller that turns a driver's turn
    command into a target yaw, integrated over time and wrapped into the
    compass range, and hands that target to a yaw PID loop whose output it
    stores clamped to [-1, 1]. The PID loop and the NavX gyroscope are not
    modelled: the setpoint handed to the loop is kept in `pidSetpoint`, the
    loop's output arrives through `PidWrite`, and yaw readings are
    parameters. */
module ChassisControl {
  import opened Numeric

  /** The wrapped `ChassisController`: the three values its getters return. */
  class ChassisController {
    var x: real
    var y: real
    var turnSpeed: real

    constructor (x: real, y: real, turnSpeed: real)
      ensures this.x == x && this.y == y && this.turnSpeed == turnSpeed
    {
      this.x, this.y, this.turnSpeed := x, y, turnSpeed;
    }
  }

  /** The single wrap of `getTurnSpeed`, in its absolute-value form: above
      180 the yaw becomes `-180 + (|yaw| - 180)`, below -180 it becomes
      `180 - (|yaw| - 180)`. It moves the yaw by one turn at most, so only
      yaws within one and a half turns of zero land in the compass range. */
  function WrapYaw(yaw: real): (r: real)
    ensures yaw > 180.0 ==> r == yaw - 360.0
    ensures yaw < -180.0 ==> r == yaw + 360.0
    ensures -180.0 <= yaw <= 180.0 ==> r == yaw
    ensures -180.0 <= r <= 180.0 <==> -540.0 <= yaw <= 540.0
  {
    if yaw > 180.0 then -180.0 + (Abs(yaw) - 180.0)
    else if yaw < -180.0 then 180.0 - (Abs(yaw) - 180.0)
    else yaw
  }

  /** The target yaw before the wrap: the previous target advanced by the
      turn command times `maxDegreesPerSecond` times the difference between
      `now * 1000` and the stored `lastUpdate`. */
  function Advanced(targetYaw: real, turn: real, maxDegreesPerSecond: real, now: int, lastUpdate: real): real
  {
    targetYaw + turn * maxDegreesPerSecond * ((now * 1000) as real - lastUpdate)
  }

  /** A wrapped yaw points the same way as the unwrapped one: they differ by
      a whole number of turns, and by none when the yaw is already in range. */
  lemma WrapKeepsHeading(yaw: real)
    ensures WrapYaw(yaw) - yaw in {-360.0, 0.0, 360.0}
    ensures -180.0 <= yaw <= 180.0 <==> WrapYaw(yaw) == yaw
  {
  }

  /** A yaw that is already wrapped is left alone by a second wrap, when the
      first one landed in range. */
  lemma WrapSettles(yaw: real)
    requires -540.0 <= yaw <= 540.0
    ensures WrapYaw(WrapYaw(yaw)) == WrapYaw(yaw)
  {
  }

  /** The wrap is applied once only: a yaw of 600 degrees becomes 240, which
      is still outside the compass range. */
  lemma SingleWrapExample()
    ensures WrapYaw(600.0) == 240.0
  {
  }

  /** With the turn command at zero the target yaw stays where it is,
      however much time has passed. */
  lemma StillStickHoldsYaw(targetYaw: real, maxDegreesPerSecond: real, now: int, lastUpdate: real)
    requires -180.0 <= targetYaw <= 180.0
    ensures WrapYaw(Advanced(targetYaw, 0.0, maxDegreesPerSecond, now, lastUpdate)) == targetYaw
  {
  }

  /** Two calls `dt` milliseconds apart advance the target by
      `turn * maxDegreesPerSecond * 1000 * dt`: the stored timestamps are
      milliseconds times 1000, not seconds. */
  lemma AdvancePerMillisecond(targetYaw: real, turn: real, maxDegreesPerSecond: real, previous: int, dt: int)
    ensures Advanced(targetYaw, turn, maxDegreesPerSecond, previous + dt, (previous * 1000) as real)
      == targetYaw + turn * maxDegreesPerSecond * 1000.0 * dt as real
  {
    assert (previous + dt) * 1000 - previous * 1000 == dt * 1000;
  }

  class PIDChassisController {
    const controller: ChassisController
    const maxDegreesPerSecond: real
    var targetYaw: real
    /** `System.currentTimeMillis() * 1000` at the previous call; 0 at first. */
    var lastUpdate: real
    /** The PID loop's last output, as stored by `pidWrite`. */
    var pidResult: real
    /** The setpoint last handed to the PID loop. */
    var pidSetpoint: real

    /** The stored PID output is always a motor fraction. */
    predicate Valid()
      reads this
    {
      -1.0 <= pidResult <= 1.0
    }

    /** `PIDChassisController(controller, Kp, Ki, Kd, maxDegreesPerSecond)`,
        given the gyroscope's yaw at construction. The gains go to the PID
        loop, which is not part of this model. */
    constructor (controller: ChassisController, maxDegreesPerSecond: real, yaw: real)
      ensures Valid()
      ensures this.controller == controller && this.maxDegreesPerSecond == maxDegreesPerSecond
      ensures targetYaw == yaw && lastUpdate == 0.0 && pidResult == 0.0 && pidSetpoint == 0.0
    {
      this.controller := controller;
      this.maxDegreesPerSecond := maxDegreesPerSecond;
      lastUpdate, pidResult, pidSetpoint := 0.0, 0.0, 0.0;
      targetYaw := yaw;
    }

    /** `reset`: the target becomes the gyroscope's present yaw. */
    method Reset(yaw: real)
      modifies this`targetYaw
      ensures targetYaw == yaw
    {
      targetYaw := yaw;
    }

    /** `getX`: the wrapped controller's value, unchanged. */
    function GetX(): (x: real)
      reads this, controller
      ensures x == controller.x
    {
      controller.x
    }

    /** `getY`: the wrapped controller's value, unchanged. */
    function GetY(): (y: real)
      reads this, controller
      ensures y == controller.y
    {
      controller.y
    }

    /** `getTurnSpeed` at time `now` (milliseconds): advances the target by
        the wrapped controller's turn command, stamps the time, wraps the
        target once, hands it to the PID loop as its setpoint and returns
        the PID output stored by the last `pidWrite`. */
    method GetTurnSpeed(now: int) returns (r: real)
      requires Valid()
      modifies this`targetYaw, this`lastUpdate, this`pidSetpoint
      ensures Valid()
      ensures lastUpdate == (now * 1000) as real
      ensures targetYaw == WrapYaw(Advanced(old(targetYaw), controller.turnSpeed, maxDegreesPerSecond,
                                            now, old(lastUpdate)))
      ensures pidSetpoint == targetYaw
      ensures r == pidResult && -1.0 <= r <= 1.0
    {
      targetYaw := targetYaw + controller.turnSpeed * maxDegreesPerSecond * ((now * 1000) as real - lastUpdate);
      lastUpdate := (now * 1000) as real;
      if targetYaw > 180.0 {
        targetYaw := -180.0 + (Abs(targetYaw) - 180.0);
      } else if targetYaw < -180.0 {
        targetYaw := 180.0 - (Abs(targetYaw) - 180.0);
      }
      pidSetpoint := targetYaw;
      r := pidResult;
    }

    /** `pidWrite`: stores the PID loop's output clamped to [-1, 1]. */
    method PidWrite(pidOut: real)
      modifies this`pidResult
      ensures Valid()
      ensures pidResult == Clamp(pidOut, -1.0, 1.0)
    {
      pidResult := pidOut;
      pidResult := Max(Min(pidResult, 1.0), -1.0);
    }
  }

  /** A turn command of zero on a controller whose target is in range keeps
      the setpoint at the target, and a stored output outside [-1, 1] comes
      back clamped. */
  method HoldHeading(yaw: real, pidOut: real, now: int) returns (setpoint: real, r: real)
    requires -180.0 <= yaw <= 180.0
    ensures setpoint == yaw
    ensures r == Clamp(pidOut, -1.0, 1.0)
  {
    var stick := new ChassisController(0.0, 0.5, 0.0);
    var c := new PIDChassisController(stick, 90.0, yaw);
    c.PidWrite(pidOut);
    r := c.GetTurnSpeed(now);
    StillStickHoldsYaw(yaw, 90.0, now, 0.0);
    setpoint := c.pidSetpoint;
  }
}
