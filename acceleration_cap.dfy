/** `AccelerationCap`: a speed modifier that ramps a motor command at a
    bounded rate (faster when slowing down than when speeding up) and
    protects the battery from brownout, backing the output off when the
    voltage is already low and holding it when one more ramp step is
    predicted to pull the voltage below the hard-stop level. */
module SpeedModifiers {
  import opened Wrappers
  import opened Numeric

  const MAXIMUM_MOTOR_INCREASE_PER_SECOND: real := 2.4
  const MAXIMUM_MOTOR_DECREASE_PER_SECOND: real := 4.8
  /** How much the output is throttled per call while the voltage is low. */
  const ANTI_BROWNOUT_BACKOFF: real := 0.05
  const DEFAULT_HARD_STOP_VOLTAGE: real := 9.0
  /** Empirical factor applied to every motor's amps-per-output constant. */
  const STALL_AMPERAGE_RESCALE: real := 5.0
  const CIM_AMPS_PER_PERCENT: real := 12.83 * STALL_AMPERAGE_RESCALE
  const PRO_775_AMPS_PER_PERCENT: real := 13.33 * STALL_AMPERAGE_RESCALE
  const BAG_AMPS_PER_PERCENT: real := 5.12 * STALL_AMPERAGE_RESCALE

  /** What one call reads from the power distribution panel: the battery
      voltage (already falling back to the driver station's estimate when
      the panel is stale), the total current and the battery resistance, the
      last two failing when the panel's cache is stale. */
  datatype PowerReadings = PowerReadings(voltage: real, current: Result<real>, resistance: Result<real>)

  /** Seconds between two millisecond timestamps. */
  function DeltaSeconds(last: int, now: int): real
  {
    (now - last) as real / 1000.0
  }

  /** The command is smaller in magnitude than the previous output and on the
      same side of zero: a genuine slow-down, not a reversal. A command of 0
      from a moving motor is never one, because `signum(0)` differs. */
  predicate Decelerating(prev: real, input: real)
  {
    Abs(input) < Abs(prev) && Signum(input) == Signum(prev)
  }

  /** One rate-limited step from `prev` towards `input` of at most `step`:
      snaps to `input` when it is closer than `step`. */
  function Ramp(prev: real, input: real, step: real): (r: real)
    ensures Abs(prev - input) < step ==> r == input
    ensures prev == input ==> r == input
    ensures step >= 0.0 ==> Between(r, prev, input)
    ensures step >= 0.0 ==> Abs(r - input) == Max(0.0, Abs(prev - input) - step)
    ensures step >= 0.0 ==> Abs(r - prev) <= step
  {
    if Abs(prev - input) < step then input
    else if input > prev then prev + step
    else if input < prev then prev - step
    else input
  }

  /** The brownout backoff: one `ANTI_BROWNOUT_BACKOFF` towards zero, snapping
      to exactly zero once the magnitude would be that or less. */
  function Backoff(prev: real): (r: real)
    ensures Abs(r) <= Abs(prev)
    ensures r == 0.0 <==> Abs(prev) <= 2.0 * ANTI_BROWNOUT_BACKOFF
    ensures r != 0.0 ==> Abs(r) == Abs(prev) - ANTI_BROWNOUT_BACKOFF && Signum(r) == Signum(prev)
  {
    var candidate := prev - ANTI_BROWNOUT_BACKOFF * Signum(prev);
    if Abs(candidate) <= ANTI_BROWNOUT_BACKOFF then 0.0 else candidate
  }

  /** The one-step prediction: from the present current and resistance, the
      open-circuit voltage is `I*R + V`; ramping for `dt` seconds adds
      `2.4*dt*ampsPerPercent` amperes; the increase is vetoed when the
      voltage at that current would be below `hardStop`. Without current or
      resistance there is no veto. */
  predicate Vetoed(rd: PowerReadings, dt: real, hardStop: real, ampsPerPercent: real)
  {
    && rd.current.Success? && rd.resistance.Success?
    && var baseVoltage := rd.current.value * rd.resistance.value + rd.voltage;
       var nextCurrent := rd.current.value + MAXIMUM_MOTOR_INCREASE_PER_SECOND * dt * ampsPerPercent;
       baseVoltage - nextCurrent * rd.resistance.value < hardStop
  }

  /** The prediction does not depend on the present current: it is the
      present voltage less the drop the extra current would cause. */
  lemma VetoIsProjectedDrop(rd: PowerReadings, dt: real, hardStop: real, ampsPerPercent: real)
    ensures Vetoed(rd, dt, hardStop, ampsPerPercent) <==>
      && rd.current.Success? && rd.resistance.Success?
      && rd.voltage - MAXIMUM_MOTOR_INCREASE_PER_SECOND * dt * ampsPerPercent * rd.resistance.value < hardStop
  {
    if rd.current.Success? && rd.resistance.Success? {
      var i, res := rd.current.value, rd.resistance.value;
      var extra := MAXIMUM_MOTOR_INCREASE_PER_SECOND * dt * ampsPerPercent;
      assert (i + extra) * res == i * res + extra * res;
    }
  }

  /** The brownout protection's verdict on a command that is not a
      slow-down: the backoff when the voltage is already low, the previous
      output when the increase is vetoed, otherwise the command itself. */
  function Protected(prev: real, input: real, dt: real, rd: PowerReadings,
                     hardStop: real, ampsPerPercent: real): real
  {
    if rd.voltage < hardStop then Backoff(prev)
    else if Vetoed(rd, dt, hardStop, ampsPerPercent) then prev
    else input
  }

  /** The output of one `modify` call, from the previous output `prev`, the
      command `input`, the seconds `dt` since the last call and the panel's
      readings. */
  function Modified(prev: real, input: real, dt: real, rd: PowerReadings,
                    hardStop: real, ampsPerPercent: real): (r: real)
    ensures dt >= 0.0 ==> Abs(r) <= Max(Abs(prev), Abs(input))
  {
    if Decelerating(prev, input) then
      Ramp(prev, input, MAXIMUM_MOTOR_DECREASE_PER_SECOND * dt)
    else
      var candidate := Protected(prev, input, dt, rd, hardStop, ampsPerPercent);
      if candidate == input then Ramp(prev, input, MAXIMUM_MOTOR_INCREASE_PER_SECOND * dt)
      else candidate
  }

  /** A slow-down ramps at 4.8 per second without reading the panel: it
      snaps to the command within one step, otherwise moves one step towards
      it, never past it and never across zero. */
  lemma DecelerationBranch(prev: real, input: real, dt: real, rd: PowerReadings, rd': PowerReadings,
                           hardStop: real, ampsPerPercent: real)
    requires Decelerating(prev, input) && dt >= 0.0
    ensures var r := Modified(prev, input, dt, rd, hardStop, ampsPerPercent);
      && r == Modified(prev, input, dt, rd', hardStop, ampsPerPercent)
      && Between(r, prev, input)
      && Abs(r - input) == Max(0.0, Abs(prev - input) - MAXIMUM_MOTOR_DECREASE_PER_SECOND * dt)
      && Signum(r) == Signum(prev)
  {
  }

  /** Commanding 0 from a moving motor goes through brownout protection and
      the 2.4 per second ramp, not the faster slow-down ramp. */
  lemma StopIsNotDeceleration(prev: real)
    requires prev != 0.0
    ensures !Decelerating(prev, 0.0)
  {
  }

  /** Below the hard-stop voltage the output backs off towards zero, and the
      ramp runs only when the backed-off value happens to equal the command. */
  lemma BrownoutBranch(prev: real, input: real, dt: real, rd: PowerReadings,
                       hardStop: real, ampsPerPercent: real)
    requires !Decelerating(prev, input) && rd.voltage < hardStop
    ensures var r := Modified(prev, input, dt, rd, hardStop, ampsPerPercent);
      && (Backoff(prev) != input ==> r == Backoff(prev) && Abs(r) <= Abs(prev))
      && (Backoff(prev) == input ==> r == Ramp(prev, input, MAXIMUM_MOTOR_INCREASE_PER_SECOND * dt))
  {
  }

  /** A vetoed increase holds the previous output. */
  lemma VetoHoldsOutput(prev: real, input: real, dt: real, rd: PowerReadings,
                        hardStop: real, ampsPerPercent: real)
    requires !Decelerating(prev, input) && rd.voltage >= hardStop
    requires Vetoed(rd, dt, hardStop, ampsPerPercent)
    ensures Modified(prev, input, dt, rd, hardStop, ampsPerPercent) == prev
  {
  }

  /** Repeating the previous command with enough voltage returns it
      unchanged, whatever the panel predicts. */
  lemma RepeatedCommandHolds(prev: real, dt: real, rd: PowerReadings, hardStop: real, ampsPerPercent: real)
    requires rd.voltage >= hardStop
    ensures Modified(prev, prev, dt, rd, hardStop, ampsPerPercent) == prev
  {
  }

  /** From rest, a full command over a 0.1 s cycle gives 0.24, not 1. */
  lemma RampExample(rd: PowerReadings)
    requires rd.voltage >= DEFAULT_HARD_STOP_VOLTAGE && rd.current.Failure?
    ensures Modified(0.0, 1.0, 0.1, rd, DEFAULT_HARD_STOP_VOLTAGE, PRO_775_AMPS_PER_PERCENT) == 0.24
  {
  }

  /** Away from the backoff, the output lies between the previous output and
      the command; with the backoff it is no larger in magnitude than one of
      them. Either way outputs and commands in [-1, 1] keep the output there. */
  lemma OutputBounded(prev: real, input: real, dt: real, rd: PowerReadings,
                      hardStop: real, ampsPerPercent: real)
    requires dt >= 0.0
    ensures var r := Modified(prev, input, dt, rd, hardStop, ampsPerPercent);
      && (Decelerating(prev, input) || rd.voltage >= hardStop ==> Between(r, prev, input))
      && (-1.0 <= prev <= 1.0 && -1.0 <= input <= 1.0 ==> -1.0 <= r <= 1.0)
  {
  }

  /** `n` successive calls, `dt` seconds apart, with the same command and the
      same readings. */
  function Repeat(prev: real, input: real, dt: real, rd: PowerReadings,
                  hardStop: real, ampsPerPercent: real, n: nat): real
    decreases n
  {
    if n == 0 then prev
    else Repeat(Modified(prev, input, dt, rd, hardStop, ampsPerPercent), input, dt, rd, hardStop, ampsPerPercent, n - 1)
  }

  /** With enough voltage and no veto, a call that is not a slow-down is
      the 2.4-per-second ramp, and a slow-down is the faster ramp, which
      is at least as close to the command. */
  lemma StepCloses(prev: real, input: real, dt: real, rd: PowerReadings,
                   hardStop: real, ampsPerPercent: real)
    requires dt >= 0.0 && rd.voltage >= hardStop && !Vetoed(rd, dt, hardStop, ampsPerPercent)
    ensures Abs(input - Modified(prev, input, dt, rd, hardStop, ampsPerPercent))
      <= Max(0.0, Abs(input - prev) - MAXIMUM_MOTOR_INCREASE_PER_SECOND * dt)
  {
  }

  /** A distance covered by `n` steps, once shortened by one step, is
      covered by `n - 1`. */
  lemma StepsLeft(d: real, dNext: real, step: real, n: nat)
    requires n > 0 && step >= 0.0 && dNext <= Max(0.0, d - step) && n as real * step >= d
    ensures dNext <= (n - 1) as real * step
  {
    var k := (n - 1) as real;
    assert n as real == k + 1.0;
    assert (k + 1.0) * step == k * step + step;
    assert 0.0 <= k * step;
  }

  /** One call under the conditions of `RampReachesCommand` leaves a
      distance that `n - 1` further steps cover. */
  lemma StepTowards(prev: real, input: real, dt: real, rd: PowerReadings,
                    hardStop: real, ampsPerPercent: real, n: nat)
    requires n > 0 && dt > 0.0 && rd.voltage >= hardStop && !Vetoed(rd, dt, hardStop, ampsPerPercent)
    requires n as real * (MAXIMUM_MOTOR_INCREASE_PER_SECOND * dt) >= Abs(input - prev)
    ensures (n - 1) as real * (MAXIMUM_MOTOR_INCREASE_PER_SECOND * dt)
      >= Abs(input - Modified(prev, input, dt, rd, hardStop, ampsPerPercent))
  {
    StepCloses(prev, input, dt, rd, hardStop, ampsPerPercent);
    StepsLeft(Abs(input - prev), Abs(input - Modified(prev, input, dt, rd, hardStop, ampsPerPercent)),
              MAXIMUM_MOTOR_INCREASE_PER_SECOND * dt, n);
  }

  /** Repeating a command converges: with enough voltage and no veto, after
      `n` calls with `n * 2.4 * dt` at least the distance, the output equals
      the command exactly. */
  lemma {:induction false} RampReachesCommand(prev: real, input: real, dt: real, rd: PowerReadings,
                                              hardStop: real, ampsPerPercent: real, n: nat)
    requires dt > 0.0 && rd.voltage >= hardStop && !Vetoed(rd, dt, hardStop, ampsPerPercent)
    requires n as real * (MAXIMUM_MOTOR_INCREASE_PER_SECOND * dt) >= Abs(input - prev)
    ensures Repeat(prev, input, dt, rd, hardStop, ampsPerPercent, n) == input
    decreases n
  {
    if n > 0 {
      StepTowards(prev, input, dt, rd, hardStop, ampsPerPercent, n);
      RampReachesCommand(Modified(prev, input, dt, rd, hardStop, ampsPerPercent),
                         input, dt, rd, hardStop, ampsPerPercent, n - 1);
    }
  }

  /** Under a held command away from zero that the output does not exceed,
      a low voltage makes every call the backoff. */
  lemma BrownoutStep(prev: real, input: real, dt: real, rd: PowerReadings,
                     hardStop: real, ampsPerPercent: real)
    requires rd.voltage < hardStop && input != 0.0 && Abs(input) >= Abs(prev)
    ensures Modified(prev, input, dt, rd, hardStop, ampsPerPercent) == Backoff(prev)
  {
  }

  /** While the voltage stays low and the command is held, the output falls
      by the backoff each call and reaches exactly 0 within `|prev| / 0.05`
      calls, where it stays. */
  lemma {:induction false} BrownoutReachesZero(prev: real, input: real, dt: real, rd: PowerReadings,
                                               hardStop: real, ampsPerPercent: real, n: nat)
    requires rd.voltage < hardStop && input != 0.0 && Abs(input) >= Abs(prev)
    requires n as real * ANTI_BROWNOUT_BACKOFF >= Abs(prev)
    ensures Repeat(prev, input, dt, rd, hardStop, ampsPerPercent, n) == 0.0
    decreases n
  {
    if n > 0 {
      BrownoutStep(prev, input, dt, rd, hardStop, ampsPerPercent);
      BrownoutReachesZero(Backoff(prev), input, dt, rd, hardStop, ampsPerPercent, n - 1);
    }
  }

  class AccelerationCap {
    /** Milliseconds of the previous call. */
    var lastUpdate: int
    const hardStopVoltage: real
    const motorAmpsPerPercent: real
    var outputSpeed: real

    /** `AccelerationCap(pdp, hardStopVoltage, motorAmpsPerPercent)`, created
        at time `now`: starts at rest. */
    constructor (hardStopVoltage: real, motorAmpsPerPercent: real, now: int)
      ensures this.hardStopVoltage == hardStopVoltage && this.motorAmpsPerPercent == motorAmpsPerPercent
      ensures outputSpeed == 0.0 && lastUpdate == now
    {
      this.hardStopVoltage := hardStopVoltage;
      this.motorAmpsPerPercent := motorAmpsPerPercent;
      outputSpeed := 0.0;
      lastUpdate := now;
    }

    /** `AccelerationCap(pdp)`: 9 V hard stop and the 775 Pro motor. */
    constructor Default(now: int)
      ensures hardStopVoltage == 9.0 && motorAmpsPerPercent == 13.33 * 5.0
      ensures outputSpeed == 0.0 && lastUpdate == now
    {
      hardStopVoltage := DEFAULT_HARD_STOP_VOLTAGE;
      motorAmpsPerPercent := PRO_775_AMPS_PER_PERCENT;
      outputSpeed := 0.0;
      lastUpdate := now;
    }

    /** `modify`: the output for command `inputSpeed` at time `now`, which
        also becomes the previous output of the next call. */
    method Modify(inputSpeed: real, now: int, rd: PowerReadings) returns (r: real)
      modifies this`outputSpeed, this`lastUpdate
      ensures lastUpdate == now && r == outputSpeed
      ensures r == Modified(old(outputSpeed), inputSpeed, DeltaSeconds(old(lastUpdate), now), rd,
                            hardStopVoltage, motorAmpsPerPercent)
      ensures -1.0 <= old(outputSpeed) <= 1.0 && -1.0 <= inputSpeed <= 1.0 && old(lastUpdate) <= now ==>
        -1.0 <= r <= 1.0
    {
      var currentSpeed := outputSpeed;
      var deltaTime := (now - lastUpdate) as real / 1000.0;
      lastUpdate := now;
      if Decelerating(currentSpeed, inputSpeed) {
        // Ramp down faster, for the gearboxes.
        outputSpeed := RampStep(currentSpeed, inputSpeed, MAXIMUM_MOTOR_DECREASE_PER_SECOND * deltaTime);
      } else {
        outputSpeed := Protect(currentSpeed, inputSpeed, deltaTime, rd, hardStopVoltage, motorAmpsPerPercent);
        // Ramping, when the brownout protection left the command alone.
        if outputSpeed == inputSpeed {
          outputSpeed := RampStep(currentSpeed, inputSpeed, MAXIMUM_MOTOR_INCREASE_PER_SECOND * deltaTime);
        }
      }
      assert deltaTime == DeltaSeconds(old(lastUpdate), now);
      if old(lastUpdate) <= now {
        OutputBounded(currentSpeed, inputSpeed, deltaTime, rd, hardStopVoltage, motorAmpsPerPercent);
      }
      r := outputSpeed;
    }
  }

  /** The ramp as `modify` writes it, branch by branch. */
  method RampStep(currentSpeed: real, inputSpeed: real, step: real) returns (out: real)
    ensures out == Ramp(currentSpeed, inputSpeed, step)
  {
    out := inputSpeed;
    if Abs(currentSpeed - inputSpeed) < step {
      out := inputSpeed;
    } else if inputSpeed > currentSpeed {
      out := currentSpeed + step;
    } else if inputSpeed < currentSpeed {
      out := currentSpeed - step;
    }
  }

  /** The brownout protection as `modify` writes it: starts from the
      command, backs off when the voltage is low, and otherwise, when the
      panel reports current and resistance, holds the previous output if one
      more ramp step is predicted to pull the voltage below `hardStop`. */
  method Protect(currentSpeed: real, inputSpeed: real, deltaTime: real, rd: PowerReadings,
                 hardStop: real, ampsPerPercent: real) returns (out: real)
    ensures out == Protected(currentSpeed, inputSpeed, deltaTime, rd, hardStop, ampsPerPercent)
  {
    out := inputSpeed;
    var currentVoltage := rd.voltage;
    if currentVoltage < hardStop {
      out := currentSpeed - ANTI_BROWNOUT_BACKOFF * Signum(currentSpeed);
      if Abs(out) <= ANTI_BROWNOUT_BACKOFF {
        out := 0.0;
      }
    } else if rd.current.Success? && rd.resistance.Success? {
      var currentCurrent := rd.current.value;
      var batteryResistance := rd.resistance.value;
      var baseVoltage := currentCurrent * batteryResistance + currentVoltage;
      var nextCurrent := currentCurrent + MAXIMUM_MOTOR_INCREASE_PER_SECOND * deltaTime * ampsPerPercent;
      if baseVoltage - nextCurrent * batteryResistance < hardStop {
        out := currentSpeed;
      }
    }
  }
}
