/** Failure-compatible wrappers for absent values and reads that can throw. */
module Wrappers {

  /** A value that may be absent, such as a CAN frame that did not arrive
      (`CustomCAN.read` returns null) or a sensor read that failed. */
  datatype Option<T> = None | Some(value: T)

  /** The outcome of a call that either returns a value or throws
      `InvalidSensorException` with a message. */
  datatype Result<T> = Success(value: T) | Failure(message: string)
}

/** The `Math` helpers the controllers use, on mathematical reals. */
module Numeric {

  /** `Math.abs`. */
  function Abs(x: real): (r: real)
    ensures r >= 0.0 && (r == x || r == -x)
  {
    if x < 0.0 then -x else x
  }

  /** `Math.signum`: the sign of `x` as -1, 0 or 1. */
  function Signum(x: real): (r: real)
    ensures x > 0.0 <==> r == 1.0
    ensures x < 0.0 <==> r == -1.0
    ensures x == 0.0 <==> r == 0.0
  {
    if x > 0.0 then 1.0 else if x < 0.0 then -1.0 else 0.0
  }

  /** `Math.min`. */
  function Min(a: real, b: real): (r: real)
    ensures r <= a && r <= b && (r == a || r == b)
  {
    if a <= b then a else b
  }

  /** `Math.max`. */
  function Max(a: real, b: real): (r: real)
    ensures r >= a && r >= b && (r == a || r == b)
  {
    if a >= b then a else b
  }

  /** `Math.max(Math.min(x, hi), lo)`: the output clamp of both PID classes
      and of the chassis controller. When the bounds are inverted the lower
      one wins, because it is applied last. */
  function Clamp(x: real, lo: real, hi: real): (r: real)
    ensures lo <= hi ==> lo <= r <= hi
    ensures lo <= x <= hi ==> r == x
    ensures lo <= hi && x > hi ==> r == hi
    ensures x < lo ==> r == lo
    ensures hi < lo ==> r == lo
  {
    Max(Min(x, hi), lo)
  }

  /** True when `x` lies between `a` and `b`, whichever of the two is larger. */
  predicate Between(x: real, a: real, b: real)
  {
    Min(a, b) <= x <= Max(a, b)
  }

  /** The PIDF sum `P*error + I*totalError + D*derivative + F*setpoint`
      shared by `CustomPID` and `CustomPIDController`. */
  function Pidf(P: real, I: real, D: real, F: real,
                error: real, totalError: real, derivative: real, setpoint: real): real
  {
    P * error + I * totalError + D * derivative + F * setpoint
  }
}
