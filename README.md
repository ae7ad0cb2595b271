# Robot control core: power telemetry, PID loops, brownout ramp, yaw hold

A Dafny model of five pieces of control logic from an FRC robot library
(the `org.usfirst.frc4904.standard` Java package):

- **PDP** (`PowerDistribution`). The power-distribution-panel telemetry decoder. It unpacks 8-byte CAN status frames into 16 channel currents, the bus voltage, the battery resistance and the total current. Each field is decoded with the panel class's own masks and shifts over `bv8` bytes. The values go into a cache: an `array<real>` of channel currents plus scalar fields, sharing one `lastRead` timestamp. `GetVoltageSafely`, `GetBatteryResistanceSafely` and `GetTotalCurrent` refuse a cache older than 100 ms (`MAX_AGE`); `GetCurrent` returns the cached channel current without that check (custom/sensors/PDP.java:177-194). Each reader is a method on the `PDP` class. Each is proved equal to a pure function on a `Snapshot` value of the cache (`AfterStatus1/2/3`, `AfterEnergy`), and those functions carry the "only its own slots change" guarantees.
- **CustomPIDController** (`MotionControllers`). One PIDF step, with:
  - feed-forward only when disabled;
  - the continuous-range error wrap;
  - a time-weighted integral;
  - a native-rate or numeric derivative;
  - output capping.

  `GetSafely` is specified by the two-state predicate `Stepped`.
- **CustomPID** (`SimplePid`). A simpler PIDF loop whose integral grows by the raw error once per call and whose `lastError` is never written.
- **AccelerationCap** (`SpeedModifiers`). A ramp limiter with brownout protection. `Modify` is proved equal to the pure function `Modified`. The lemmas about `Modified` cover four things:
  - the branches;
  - boundedness;
  - convergence of a held command;
  - the backoff reaching zero.
- **PIDChassisController** (`ChassisControl`). This covers the target-yaw integration, the single ±360 wrap and the clamped storage of the yaw PID output.

Shared helpers are in `common.dfy`: `Option` and `Result`, plus `Math.abs`, `signum`, `min`, `max` and the `max(min(x, hi), lo)` clamp over `real`. Every Java `double` is a Dafny `real`. Time is a parameter `now` in milliseconds, and so are sensor readings and CAN frames.

Three consequences of the code as written are worth knowing:

- **All-ones channel 0.** All-ones bytes decode channel 0 to 1020 counts (127.5 A), not 1023, because bits 6–7 of the second byte are not shifted down (custom/sensors/PDP.java:55). See `AllOnesChannelZero`.
- **The 170 / −170 compass example.** On the range [-180, 180], setpoint 170 and input −170 give a raw error of 340. The code subtracts the range from a positive error, so the wrapped error and the output with P = 1 are −20 (custom/motioncontrollers/CustomPIDController.java:236-241). See `CompassWrapExample` and `CompassScenario`.
- **The half-range bound.** The wrap is applied once only. A wrapped error is therefore within half the range exactly when the raw error is within one and a half ranges; a raw error of 400 on [-180, 180] becomes 40 (custom/motioncontrollers/CustomPIDController.java:233-243). The bound always holds when setpoint and input lie in the input range; see `WrapError` and `WrappedErrorIsShortest`.

## Model

| member | source | states |
|---|---|---|
| Numeric.Clamp | custom/motioncontrollers/CustomPIDController.java:266 | `max(min(x, hi), lo)` lies in [lo, hi] when lo ≤ hi, is x inside the range, hi above it, and lo below it or when the bounds are inverted |
| PowerDistribution.FieldA | custom/sensors/PDP.java:55 | the layout-A field is between 4·hi and 4·hi + 0xC0, at most 1020, and a multiple of 4 |
| PowerDistribution.FieldB | custom/sensors/PDP.java:56 | the layout-B field is 16·(hi & 0x3F) plus at most 0xF0, at most 1008, and a multiple of 16 |
| PowerDistribution.FieldC | custom/sensors/PDP.java:57 | the layout-C field equals (hi & 0x0F)·64 + (lo & 0x3F), at most 1023 |
| PowerDistribution.FieldD | custom/sensors/PDP.java:58 | the layout-D field equals (hi >> 6)·0x4000 + lo, so it can reach 0xC0FF |
| PowerDistribution.GroupCurrents | custom/sensors/PDP.java:55-60 | each of the six currents of a status frame is its field's count times 0.125, non-negative, with the per-layout maxima 127.5, 126.0, 127.875 and 6175.875 A |
| PowerDistribution.Status3Voltage | custom/sensors/PDP.java:85 | the bus voltage lies in [4.0, 16.75] and is 4.0 exactly when the byte is 0 |
| PowerDistribution.Status3Resistance | custom/sensors/PDP.java:86 | the resistance lies in [0, 0.255] and is the byte divided by 1000 |
| PowerDistribution.EnergyRaw | custom/sensors/PDP.java:155-157 | the 12-bit total-current field holds the second byte in its top 8 bits and the third byte's high nibble in its low 4 bits, so it equals b1·16 + (b2 >> 4) ≤ 0xFFF |
| PowerDistribution.TotalCurrent | custom/sensors/PDP.java:155-158 | the total current lies in [0, 511.875] A |
| PowerDistribution.AfterStatus1 | custom/sensors/PDP.java:52-63 | a missing frame changes nothing; a frame writes channels 0–5 with its decoded currents and stamps `lastRead`; every other slot and field is unchanged |
| PowerDistribution.AfterStatus2 | custom/sensors/PDP.java:65-76 | as above for channels 6–11 |
| PowerDistribution.AfterStatus3 | custom/sensors/PDP.java:78-89 | a frame writes channels 12–15, the voltage from byte 6 and the resistance from byte 5, and stamps `lastRead`; channels 0–11 and the total current are unchanged; a missing frame changes nothing |
| PowerDistribution.AfterEnergy | custom/sensors/PDP.java:153-160 | a frame sets only the total current and `lastRead`; a missing frame changes nothing |
| PowerDistribution.ReadersKeepPlausible | custom/sensors/PDP.java:52-89 | the zeroed cache holds only non-negative values, and every reader keeps it so |
| PowerDistribution.AnyFrameRefreshesVoltage | custom/sensors/PDP.java:118-163 | since `lastRead` is shared, a fresh energy frame lets a later voltage read succeed with the old cached voltage although no Status3 frame arrived |
| PowerDistribution.AllOnesChannelZero | custom/sensors/PDP.java:55 | all-ones bytes decode channel 0 to 127.5 A |
| PowerDistribution.AllOnesChannelThree | custom/sensors/PDP.java:58 | all-ones bytes decode channel 3 to 0xC0FF·0.125 = 6175.875 A |
| PowerDistribution.PDP.constructor | custom/sensors/PDP.java:36-41 | each status id is its base id or-ed with the panel id; the cache starts zeroed |
| PowerDistribution.PDP.Default | custom/sensors/PDP.java:48-50 | the panel at id 0 |
| PowerDistribution.PDP.ReadStatus1 | custom/sensors/PDP.java:52-63 | the cache afterwards is `AfterStatus1` of the cache before |
| PowerDistribution.PDP.ReadStatus2 | custom/sensors/PDP.java:65-76 | the cache afterwards is `AfterStatus2` of the cache before |
| PowerDistribution.PDP.ReadStatus3 | custom/sensors/PDP.java:78-89 | the cache afterwards is `AfterStatus3` of the cache before |
| PowerDistribution.PDP.GetVoltageSafely | custom/sensors/PDP.java:118-124 | polls Status3, then fails exactly when now − lastRead > 100, and otherwise returns the cached voltage |
| PowerDistribution.PDP.GetVoltage | custom/sensors/PDP.java:100-108 | as `GetVoltageSafely`, returning the driver-station voltage when stale |
| PowerDistribution.PDP.GetBatteryResistanceSafely | custom/sensors/PDP.java:136-142 | polls Status3, fails exactly when stale, otherwise returns the cached resistance |
| PowerDistribution.PDP.GetBatteryResistance | custom/sensors/PDP.java:126-134 | as above, returning 80.0 when stale |
| PowerDistribution.PDP.GetTotalCurrent | custom/sensors/PDP.java:152-165 | the cache afterwards is `AfterEnergy` of the cache before; fails exactly when stale, otherwise returns the cached total current |
| PowerDistribution.PDP.GetCurrent | custom/sensors/PDP.java:177-194 | a channel outside 0–15 gives 0 and changes nothing; otherwise exactly the one matching group is polled and the cached channel value is returned with no staleness check |
| MotionControllers.WrapError | custom/motioncontrollers/CustomPIDController.java:233-243 | without `continuous` the error is unchanged; with it an error within half a range stays put, and any larger error loses one range when positive and gains one otherwise; between half a range and one range this shrinks its magnitude and flips its sign; an error within one and a half ranges ends within half a range |
| MotionControllers.WrappedErrorIsShortest | custom/motioncontrollers/CustomPIDController.java:233-243 | with setpoint and input in [inputMin, inputMax] the wrapped error is at most half the range |
| MotionControllers.CompassWrapExample | custom/motioncontrollers/CustomPIDController.java:233-243 | on [-180, 180], setpoint 170 and input −170 wrap to −20, and a raw error of 400 wraps once only, to 40 |
| MotionControllers.CustomPIDController.constructor | custom/motioncontrollers/CustomPIDController.java:40-46 | stores the four gains and the sensor; the integral, last error and last time start at 0 |
| MotionControllers.CustomPIDController.WithoutFeedForward | custom/motioncontrollers/CustomPIDController.java:84-86 | as above with F = 0 |
| MotionControllers.CustomPIDController.Untuned | custom/motioncontrollers/CustomPIDController.java:112-114 | all gains 0 |
| MotionControllers.CustomPIDController.SetPID | custom/motioncontrollers/CustomPIDController.java:172-176 | replaces P, I and D; nothing else is writable |
| MotionControllers.CustomPIDController.SetPIDF | custom/motioncontrollers/CustomPIDController.java:193-198 | replaces all four gains |
| MotionControllers.CustomPIDController.ResetMC | custom/motioncontrollers/CustomPIDController.java:205-208 | zeroes the integral and the last error, touching nothing else |
| MotionControllers.CustomPIDController.GetError | custom/motioncontrollers/CustomPIDController.java:211-213 | returns the stored wrapped error of the last step |
| MotionControllers.CustomPIDController.Capped | custom/motioncontrollers/CustomPIDController.java:264-267 | with capping on and outputMin ≤ outputMax the output lies in [outputMin, outputMax]; with capping off it is unchanged |
| MotionControllers.CustomPIDController.Stepped | custom/motioncontrollers/CustomPIDController.java:224-269 | what one `getSafely` call computes and leaves behind, case by case: disabled → F·setpoint and no change; a throwing read → failure with the loop state untouched (a throwing rate read after the mode switch leaves the sensor in rate mode); otherwise the wrapped error, the time-weighted integral, the rate-or-difference derivative and the capped PIDF sum, with `lastTime`/`lastError` updated and the gains kept |
| MotionControllers.CustomPIDController.GetSafely | custom/motioncontrollers/CustomPIDController.java:224-269 | the whole step is specified by `Stepped`. Disabled: returns F·setpoint and changes nothing. A failed read fails and changes no loop state; a failed rate read leaves the sensor in rate mode. Otherwise: the wrapped error e is stored; `lastTime` becomes now; the integral grows by e·(now − lastTime); the derivative is the rate reading or (e − lastError)/(now − lastTime); the result is the capped PIDF sum with the updated integral. Gains and configuration never change |
| MotionControllers.CustomPIDController.Advance | custom/motioncontrollers/CustomPIDController.java:256-267 | stamps the time, integrates the error over the elapsed milliseconds, remembers the uncapped error and returns the capped PIDF sum |
| MotionControllers.CustomPIDController.Get | custom/motioncontrollers/CustomPIDController.java:280-288 | as `GetSafely`, returning 0 whenever it fails |
| MotionControllers.DisabledIsFeedForward | custom/motioncontrollers/CustomPIDController.java:226-228 | a disabled controller returns F·setpoint whatever the sensor reads |
| MotionControllers.CompassScenario | custom/motioncontrollers/CustomPIDController.java:224-269 | P = 1, compass range, setpoint 170, input −170: output −20, and `getError` reports −20 |
| SimplePid.CustomPID.constructor | custom/CustomPID.java:17-24 | the setpoint is the sensor's reading at construction |
| SimplePid.CustomPID.WithoutFeedForward | custom/CustomPID.java:26-28 | as above with F = 0 |
| SimplePid.CustomPID.SetPID | custom/CustomPID.java:30-34 | replaces P, I and D only |
| SimplePid.CustomPID.Get | custom/CustomPID.java:36-41 | only the integral changes, growing by the raw error; the result is the PIDF sum with the updated integral and derivative term D·error, since `lastError` stays 0 |
| SimplePid.FirstOutputIsFeedForward | custom/CustomPID.java:17-41 | with the sensor unchanged since construction the first output is F·reading |
| SpeedModifiers.Ramp | subsystems/motor/speedmodifiers/AccelerationCap.java:115-123 | snaps to the command within one step; otherwise the output lies between the previous output and the command, at most one step from the previous output, and the distance to the command shrinks by exactly one step |
| SpeedModifiers.Backoff | subsystems/motor/speedmodifiers/AccelerationCap.java:93-97 | the magnitude never grows; the output is 0 exactly when the previous magnitude is at most 0.1; otherwise it loses 0.05 and keeps its sign |
| SpeedModifiers.VetoIsProjectedDrop | subsystems/motor/speedmodifiers/AccelerationCap.java:102-106 | the veto holds exactly when current and resistance are available and V − 2.4·dt·amps·R < hardStop |
| SpeedModifiers.DecelerationBranch | subsystems/motor/speedmodifiers/AccelerationCap.java:81-89 | a same-sign slow-down ignores the panel readings, stays between the previous output and the command, closes by 4.8·dt, and keeps the sign |
| SpeedModifiers.StopIsNotDeceleration | subsystems/motor/speedmodifiers/AccelerationCap.java:81 | a command of 0 from a moving motor is not a slow-down |
| SpeedModifiers.BrownoutBranch | subsystems/motor/speedmodifiers/AccelerationCap.java:93-123 | below the hard stop the output is the backoff, unless the backoff equals the command, when it is the 2.4/s ramp |
| SpeedModifiers.VetoHoldsOutput | subsystems/motor/speedmodifiers/AccelerationCap.java:99-112 | a vetoed increase returns the previous output |
| SpeedModifiers.RepeatedCommandHolds | subsystems/motor/speedmodifiers/AccelerationCap.java:106-123 | with enough voltage, repeating the previous command returns it unchanged |
| SpeedModifiers.RampExample | subsystems/motor/speedmodifiers/AccelerationCap.java:115-123 | from 0, a command of 1 over 0.1 s gives 0.24 |
| SpeedModifiers.OutputBounded | subsystems/motor/speedmodifiers/AccelerationCap.java:81-123 | outside the backoff the output lies between the previous output and the command; outputs and commands in [-1, 1] keep it there |
| SpeedModifiers.StepCloses | subsystems/motor/speedmodifiers/AccelerationCap.java:115-123 | with enough voltage and no veto, one call closes the distance to the command by at least 2.4·dt |
| SpeedModifiers.RampReachesCommand | subsystems/motor/speedmodifiers/AccelerationCap.java:115-123 | a held command is reached exactly after n calls once n·2.4·dt covers the distance |
| SpeedModifiers.BrownoutStep | subsystems/motor/speedmodifiers/AccelerationCap.java:93-97 | under low voltage and a held non-zero command no smaller than the output, every call is the backoff |
| SpeedModifiers.BrownoutReachesZero | subsystems/motor/speedmodifiers/AccelerationCap.java:93-97 | under those conditions the output reaches exactly 0 within \|prev\| / 0.05 calls |
| SpeedModifiers.AccelerationCap.constructor | subsystems/motor/speedmodifiers/AccelerationCap.java:45-51 | stores the hard stop and motor constant; starts at rest, stamped now |
| SpeedModifiers.AccelerationCap.Default | subsystems/motor/speedmodifiers/AccelerationCap.java:64-66 | 9.0 V hard stop and 13.33 × 5.0 A per unit |
| SpeedModifiers.Modified | subsystems/motor/speedmodifiers/AccelerationCap.java:76-129 | the output of one `modify` call: the 4.8/s ramp toward the command when decelerating; otherwise the brownout protection (`Protected`), and, when that passes the command through, the 2.4/s ramp toward it; for a non-negative time step its magnitude never exceeds the larger of the previous output's and the command's |
| SpeedModifiers.AccelerationCap.Modify | subsystems/motor/speedmodifiers/AccelerationCap.java:76-129 | the output, also stored as the next call's previous output, is `Modified` of the previous output, the command, (now − lastUpdate)/1000 s and the readings; `lastUpdate` becomes now; outputs and commands in [-1, 1] keep the output there |
| SpeedModifiers.RampStep | subsystems/motor/speedmodifiers/AccelerationCap.java:115-123 | the branch-by-branch ramp equals `Ramp` |
| SpeedModifiers.Protect | subsystems/motor/speedmodifiers/AccelerationCap.java:91-113 | the branch-by-branch brownout protection equals `Protected`: backoff when low, previous output when vetoed, else the command |
| ChassisControl.WrapYaw | custom/PIDChassisController.java:55-59 | above 180 the yaw loses 360, below −180 it gains 360, otherwise it is kept; the result is in [-180, 180] exactly when the yaw is in [-540, 540] |
| ChassisControl.WrapKeepsHeading | custom/PIDChassisController.java:55-59 | the wrap changes the yaw by −360, 0 or 360, and by 0 exactly when it is already in range |
| ChassisControl.WrapSettles | custom/PIDChassisController.java:55-59 | within [-540, 540] a second wrap changes nothing |
| ChassisControl.SingleWrapExample | custom/PIDChassisController.java:55-59 | 600 wraps to 240, still out of range |
| ChassisControl.StillStickHoldsYaw | custom/PIDChassisController.java:53-59 | a zero turn command leaves an in-range target where it is |
| ChassisControl.AdvancePerMillisecond | custom/PIDChassisController.java:53-54 | two calls dt ms apart advance the target by turn·maxDegreesPerSecond·1000·dt |
| ChassisControl.PIDChassisController.constructor | custom/PIDChassisController.java:19-33 | stores the controller and rate; the target is the present yaw; the stored PID output starts at 0 |
| ChassisControl.PIDChassisController.Reset | custom/PIDChassisController.java:35-39 | the target becomes the present yaw |
| ChassisControl.PIDChassisController.GetX | custom/PIDChassisController.java:42-44 | the wrapped controller's x, unchanged |
| ChassisControl.PIDChassisController.GetY | custom/PIDChassisController.java:47-49 | the wrapped controller's y, unchanged |
| ChassisControl.PIDChassisController.GetTurnSpeed | custom/PIDChassisController.java:52-62 | the target becomes `WrapYaw` of the old target plus turn·maxDegreesPerSecond·(now·1000 − lastUpdate); `lastUpdate` becomes now·1000; the setpoint handed to the PID loop is the new target; returns the stored PID output, in [-1, 1] |
| ChassisControl.PIDChassisController.PidWrite | custom/PIDChassisController.java:65-68 | stores the PID output clamped to [-1, 1] |
| ChassisControl.HoldHeading | custom/PIDChassisController.java:52-68 | with a zero turn command the setpoint stays at the in-range starting yaw, and the returned output is the written one clamped |

## Left out

- The hardware and framework calls are parameters:
  - CAN reads (`CustomCAN.read`) are an `Option<Frame>`;
  - the driver-station battery voltage is a real;
  - sensor reads (`pidGet`) are an `Option<real>`, where `None` is a read that throws;
  - the NavX yaw is a real;
  - the clock is `now`.
- PIDChassisController: the Java `pid` field is `static` and every constructor replaces it, so all instances share the most recently built PID loop: each instance's `getTurnSpeed` sets that one loop's setpoint, and only the last instance receives its `pidWrite`. The model gives every instance its own `pidSetpoint` and `pidResult`, so this sharing between instances is not captured.
- The WPILib `PIDController` inside `PIDChassisController` is not modelled. Its gains, input and output ranges, `reset` and `enable` are left out. The setpoint handed to it is recorded in `pidSetpoint`, and its output enters through `PidWrite`.
- Each call uses a single `now`, although the Java code reads the clock twice, in `AccelerationCap.modify`, `PDP`'s getters and `getTurnSpeed`.
- `LogKitten` logging and the `SpeedModifier` and `MotionController` frameworks beyond the fields used here are not modelled. The superclass fields of `CustomPIDController` are plain fields, and their initial values are not stated.
- IEEE-754 behaviour is not modelled: NaN, infinities and `signum(-0.0)`. `GetSafely` requires distinct timestamps on the numeric-derivative path, where Java would divide by zero.
- Frames shorter than eight bytes are not modelled: the panel always sends eight.
- The `MINIMUM_OPERATING_VOLTAGE` constant, the `motor` field of `AccelerationCap` and the `lastUpdate` field of `CustomPID` are not modelled: nothing reads them.
- `AccelerationCap` reads the panel through a `PowerReadings` value rather than a `PDP` object, so the cache side effects of those reads are not modelled. The voltage is `getVoltage` with its fallback. The current is `getAmperage`, a method `PDP` does not define; it is read as `getTotalCurrent` with its staleness failure.
- `SensorMotor` and `MotorSet` are not part of this model. They are scheduler and actuator wiring.
- `CustomPIDController`'s getters `getP`, `getI`, `getD` and `getF` are not modelled as separate members: the gains are public fields of the class.
- The `PIDSource` constructors of `CustomPIDController` are not modelled separately: a plain source is a `Sensor` without native derivative.
