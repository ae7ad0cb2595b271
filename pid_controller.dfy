/** `CustomPIDController`: a PIDF motion controller with a continuous-range
    error wrap, a time-weighted integral, an optional native-rate derivative
    and output capping. The fields `enable`, `setpoint`, `continuous`,
    `inputMin`, `inputMax`, `capOutput`, `outputMin` and `outputMax` belong
    to the `MotionController` superclass; here they are plain fields. */
module MotionControllers {
  import opened Wrappers
  import opened Numeric

  /** `PIDSourceType`: whether a sensor reports position or rate. */
  datatype PIDSourceType = Displacement | Rate

  /** The controller's sensor. `nativeDerivative` says whether it is a
      `NativeDerivativeSensor`; `sourceType` is its current reading mode.
      Its readings are supplied to each call as parameters. */
  class Sensor {
    const nativeDerivative: bool
    var sourceType: PIDSourceType

    constructor (nativeDerivative: bool, sourceType: PIDSourceType)
      ensures this.nativeDerivative == nativeDerivative && this.sourceType == sourceType
    {
      this.nativeDerivative := nativeDerivative;
      this.sourceType := sourceType;
    }
  }

  /** The continuous-range wrap: when `continuous` is set and the error is
      more than half the range away, it is moved by one whole range, downwards
      for a positive error and upwards otherwise. It is applied once only, so
      it lands within half a range exactly for errors within one and a half
      ranges; for a setpoint and an input that both lie in
      [inputMin, inputMax] this takes the shorter way around. */
  function WrapError(error: real, continuous: bool, inputMin: real, inputMax: real): (e: real)
    ensures !continuous ==> e == error
    ensures continuous ==>
      e == error || e == error - (inputMax - inputMin) || e == error + (inputMax - inputMin)
    ensures continuous && Abs(error) <= (inputMax - inputMin) / 2.0 ==> e == error
    ensures continuous && (inputMax - inputMin) / 2.0 < Abs(error) <= inputMax - inputMin ==>
      Abs(e) < Abs(error) && (error > 0.0 ==> e <= 0.0) && (error < 0.0 ==> e >= 0.0)
    ensures continuous && Abs(error) > (inputMax - inputMin) / 2.0 ==>
      (error > 0.0 ==> e == error - (inputMax - inputMin)) && (error <= 0.0 ==> e == error + (inputMax - inputMin))
    ensures continuous && Abs(error) <= 1.5 * (inputMax - inputMin) ==> Abs(e) <= (inputMax - inputMin) / 2.0
  {
    if continuous then
      var range := inputMax - inputMin;
      if Abs(error) > range / 2.0 then
        if error > 0.0 then error - range else error + range
      else error
    else error
  }

  /** With setpoint and input both inside the input range, the wrapped error
      is at most half the range in magnitude. */
  lemma WrappedErrorIsShortest(setpoint: real, input: real, inputMin: real, inputMax: real)
    requires inputMin <= setpoint <= inputMax && inputMin <= input <= inputMax
    ensures Abs(WrapError(setpoint - input, true, inputMin, inputMax)) <= (inputMax - inputMin) / 2.0
  {
    assert Abs(setpoint - input) <= inputMax - inputMin;
  }

  /** On a compass range [-180, 180], setpoint 170 and input -170 give a raw
      error of 340, which wraps to -20; a raw error of 400, beyond one whole
      range, wraps once only, to 40. */
  lemma CompassWrapExample()
    ensures WrapError(170.0 - (-170.0), true, -180.0, 180.0) == -20.0
    ensures WrapError(400.0, true, -180.0, 180.0) == 40.0
  {
  }

  class CustomPIDController {
    var P: real
    var I: real
    var D: real
    var F: real
    var totalError: real
    var lastError: real
    /** Milliseconds of the previous enabled step (a Java `long`, 0 at first). */
    var lastTime: int
    // Fields of the `MotionController` superclass.
    var enable: bool
    var setpoint: real
    var continuous: bool
    var inputMin: real
    var inputMax: real
    var capOutput: bool
    var outputMin: real
    var outputMax: real
    const sensor: Sensor

    /** `CustomPIDController(P, I, D, F, sensor)`. The superclass fields are
        set by `MotionController`, which is not part of this model. */
    constructor (P: real, I: real, D: real, F: real, sensor: Sensor)
      ensures this.P == P && this.I == I && this.D == D && this.F == F && this.sensor == sensor
      ensures totalError == 0.0 && lastError == 0.0 && lastTime == 0
    {
      this.P, this.I, this.D, this.F := P, I, D, F;
      this.sensor := sensor;
      totalError, lastError, lastTime := 0.0, 0.0, 0;
    }

    /** `CustomPIDController(P, I, D, sensor)`: no feed-forward. */
    constructor WithoutFeedForward(P: real, I: real, D: real, sensor: Sensor)
      ensures this.P == P && this.I == I && this.D == D && F == 0.0 && this.sensor == sensor
      ensures totalError == 0.0 && lastError == 0.0 && lastTime == 0
    {
      this.P, this.I, this.D, this.F := P, I, D, 0.0;
      this.sensor := sensor;
      totalError, lastError, lastTime := 0.0, 0.0, 0;
    }

    /** `CustomPIDController(sensor)`: all gains zero. */
    constructor Untuned(sensor: Sensor)
      ensures P == 0.0 && I == 0.0 && D == 0.0 && F == 0.0 && this.sensor == sensor
      ensures totalError == 0.0 && lastError == 0.0 && lastTime == 0
    {
      P, I, D, F := 0.0, 0.0, 0.0, 0.0;
      this.sensor := sensor;
      totalError, lastError, lastTime := 0.0, 0.0, 0;
    }

    /** `setPID`: replaces P, I and D; F stays. */
    method SetPID(P: real, I: real, D: real)
      modifies this`P, this`I, this`D
      ensures this.P == P && this.I == I && this.D == D
    {
      this.P, this.I, this.D := P, I, D;
    }

    /** `setPIDF`: replaces all four gains. */
    method SetPIDF(P: real, I: real, D: real, F: real)
      modifies this`P, this`I, this`D, this`F
      ensures this.P == P && this.I == I && this.D == D && this.F == F
    {
      this.P, this.I, this.D, this.F := P, I, D, F;
    }

    /** `resetMC`: forgets the accumulated and the previous error; gains and
        setpoint are untouched. */
    method ResetMC()
      modifies this`totalError, this`lastError
      ensures totalError == 0.0 && lastError == 0.0
    {
      totalError := 0.0;
      lastError := 0.0;
    }

    /** `getError`: the wrapped error of the last completed step. */
    function GetError(): (e: real)
      reads this
      ensures e == lastError
    {
      lastError
    }

    /** True when the derivative is read natively: the sensor supports rate
        readings and is currently in displacement mode. */
    predicate UsesNativeRate()
      reads this, sensor
    {
      sensor.nativeDerivative && sensor.sourceType == Displacement
    }

    /** The output cap, when configured. */
    function Capped(x: real): (r: real)
      reads this
      ensures capOutput && outputMin <= outputMax ==> outputMin <= r <= outputMax
      ensures !capOutput ==> r == x
    {
      if capOutput then Clamp(x, outputMin, outputMax) else x
    }

    /** The numeric derivative divides by the elapsed milliseconds; the
        source divides by zero (giving NaN or infinity) when two steps share a
        millisecond, which reals cannot express. */
    twostate predicate StepDefined(reading: Option<real>, now: int)
      reads this, sensor
    {
      old(enable) && reading.Some? && !old(UsesNativeRate()) ==> now != old(lastTime)
    }

    /** A step changes none of the gains and none of the superclass's
        configuration. */
    twostate predicate ConfigKept()
      reads this
    {
      && P == old(P) && I == old(I) && D == old(D) && F == old(F)
      && enable == old(enable) && setpoint == old(setpoint)
      && continuous == old(continuous) && inputMin == old(inputMin) && inputMax == old(inputMax)
      && capOutput == old(capOutput) && outputMin == old(outputMin) && outputMax == old(outputMax)
    }

    /** The loop's memory is as it was. */
    twostate predicate Idle()
      reads this
    {
      totalError == old(totalError) && lastError == old(lastError) && lastTime == old(lastTime)
    }

    /** True when an enabled step throws: a read returned nothing. */
    twostate predicate ReadFails(reading: Option<real>, rateReading: Option<real>)
      reads this, sensor
    {
      reading.None? || (old(UsesNativeRate()) && rateReading.None?)
    }

    /** What one call of `getSafely` does, given what the sensor returns in
        its current mode (`reading`) and, for a native-rate sensor, in rate
        mode (`rateReading`). `None` stands for a read that throws. */
    twostate predicate Stepped(reading: Option<real>, rateReading: Option<real>, now: int, new r: Result<real>)
      requires StepDefined(reading, now)
      reads this, sensor
    {
      && ConfigKept()
      // Disabled: feed-forward only; the sensor is not read and nothing moves.
      && (!enable ==> r == Success(F * setpoint) && Idle() && sensor.sourceType == old(sensor.sourceType))
      // A failed read throws before any field is written; a failed rate read
      // leaves the sensor switched to rate mode.
      && (enable && ReadFails(reading, rateReading) ==>
            && r.Failure? && Idle()
            && sensor.sourceType == (if reading.None? then old(sensor.sourceType) else Rate))
      && (enable && !ReadFails(reading, rateReading) ==>
            var e := WrapError(setpoint - reading.value, continuous, inputMin, inputMax);
            var dt := (now - old(lastTime)) as real;
            var derivative := if old(UsesNativeRate()) then rateReading.value else (e - old(lastError)) / dt;
            && sensor.sourceType == old(sensor.sourceType)
            && lastTime == now
            && lastError == e
            && totalError == old(totalError) + e * dt
            && r == Success(Capped(Pidf(P, I, D, F, e, totalError, derivative, setpoint))))
    }

    /** `getSafely`: one step of the loop at time `now` (milliseconds). */
    method GetSafely(reading: Option<real>, rateReading: Option<real>, now: int) returns (r: Result<real>)
      requires enable && reading.Some? && !UsesNativeRate() ==> now != lastTime
      modifies this, sensor
      ensures StepDefined(reading, now)
      ensures Stepped(reading, rateReading, now, r)
    {
      if !enable {
        return Success(F * setpoint);
      }
      if reading.None? {
        return Failure("sensor read failed");
      }
      var input := reading.value;
      var error := WrapError(setpoint - input, continuous, inputMin, inputMax);
      var errorDerivative: real;
      if sensor.nativeDerivative && sensor.sourceType == Displacement {
        sensor.sourceType := Rate;
        if rateReading.None? {
          return Failure("sensor read failed");
        }
        errorDerivative := rateReading.value;
        sensor.sourceType := Displacement;
      } else {
        errorDerivative := (error - lastError) / ((now - lastTime) as real);
      }
      var result := Advance(error, errorDerivative, now);
      return Success(result);
    }

    /** The second half of `getSafely`: stamps the time, integrates the error
        over the elapsed milliseconds, forms the PIDF sum with the updated
        integral, remembers the error and caps the output. */
    method Advance(error: real, errorDerivative: real, now: int) returns (result: real)
      modifies this`lastTime, this`totalError, this`lastError
      ensures lastTime == now && lastError == error
      ensures totalError == old(totalError) + error * (now - old(lastTime)) as real
      ensures result == Capped(Pidf(P, I, D, F, error, totalError, errorDerivative, setpoint))
    {
      var timeDiff := now - lastTime;
      lastTime := now;
      totalError := totalError + error * (timeDiff as real);
      result := Pidf(P, I, D, F, error, totalError, errorDerivative, setpoint);
      lastError := error;
      if capOutput {
        result := Max(Min(result, outputMax), outputMin);
      }
    }

    /** `get`: as `GetSafely`, but any failure yields 0. `outcome` is what
        `GetSafely` returned. */
    method Get(reading: Option<real>, rateReading: Option<real>, now: int) returns (r: real, ghost outcome: Result<real>)
      requires enable && reading.Some? && !UsesNativeRate() ==> now != lastTime
      modifies this, sensor
      ensures StepDefined(reading, now)
      ensures Stepped(reading, rateReading, now, outcome)
      ensures r == if outcome.Success? then outcome.value else 0.0
    {
      var res := GetSafely(reading, rateReading, now);
      outcome := res;
      match res
      case Success(v) => r := v;
      case Failure(_) => r := 0.0;
    }
  }

  /** A disabled controller returns `F * setpoint` whatever its sensor reads. */
  method DisabledIsFeedForward(F: real, setpoint: real, reading: real, now: int) returns (r: real)
    ensures r == F * setpoint
  {
    var sensor := new Sensor(false, Displacement);
    var c := new CustomPIDController(1.0, 1.0, 1.0, F, sensor);
    c.enable, c.setpoint := false, setpoint;
    ghost var o;
    r, o := c.Get(Some(reading), None, now);
  }

  /** With P = 1 and the other gains 0 on the compass range, setpoint 170 and
      input -170 produce -20, and `getError` then reports -20. */
  method CompassScenario(now: int) returns (r: real, e: real)
    requires now != 0
    ensures r == -20.0 && e == -20.0
  {
    var sensor := new Sensor(false, Displacement);
    var c := new CustomPIDController(1.0, 0.0, 0.0, 0.0, sensor);
    c.enable, c.setpoint := true, 170.0;
    c.continuous, c.inputMin, c.inputMax := true, -180.0, 180.0;
    c.capOutput := false;
    ghost var o;
    r, o := c.Get(Some(-170.0), None, now);
    e := c.GetError();
  }
}
