/** `CustomPID`: a minimal stateful PIDF loop whose integral grows by the
    raw error once per call, with no time weighting. Its `lastError` field is
    never assigned, so it keeps its initial value 0 and the derivative term is
    always `D * error`. */
module SimplePid {
  import opened Numeric

  class CustomPID {
    var P: real
    var I: real
    var D: real
    var F: real
    var setpoint: real
    var totalError: real
    var lastError: real

    /** `lastError` is written by no method. */
    ghost predicate Valid()
      reads this
    {
      lastError == 0.0
    }

    /** `CustomPID(P, I, D, F, source)`: the setpoint is the source's reading
        at construction, `reading`. */
    constructor (P: real, I: real, D: real, F: real, reading: real)
      ensures Valid()
      ensures this.P == P && this.I == I && this.D == D && this.F == F
      ensures setpoint == reading && totalError == 0.0
    {
      this.P, this.I, this.D, this.F := P, I, D, F;
      setpoint := reading;
      totalError, lastError := 0.0, 0.0;
    }

    /** `CustomPID(P, I, D, source)`: no feed-forward. */
    constructor WithoutFeedForward(P: real, I: real, D: real, reading: real)
      ensures Valid()
      ensures this.P == P && this.I == I && this.D == D && F == 0.0
      ensures setpoint == reading && totalError == 0.0
    {
      this.P, this.I, this.D, this.F := P, I, D, 0.0;
      setpoint := reading;
      totalError, lastError := 0.0, 0.0;
    }

    /** `setPID`: replaces P, I and D; F, the setpoint and the integral stay. */
    method SetPID(P: real, I: real, D: real)
      modifies this`P, this`I, this`D
      ensures this.P == P && this.I == I && this.D == D
    {
      this.P, this.I, this.D := P, I, D;
    }

    /** `get`, given the source's current reading `input`: adds this call's
        error to the integral, then returns the PIDF sum with the updated
        integral. Only `totalError` changes. */
    method Get(input: real) returns (r: real)
      requires Valid()
      modifies this`totalError
      ensures Valid()
      ensures totalError == old(totalError) + (setpoint - input)
      ensures r == Pidf(P, I, D, F, setpoint - input, totalError, setpoint - input, setpoint)
    {
      var error := setpoint - input;
      totalError := totalError + error;
      r := Pidf(P, I, D, F, error, totalError, error - lastError, setpoint);
    }
  }

  /** A loop built from a reading and then asked for an output with the
      sensor unchanged sees error 0, so it returns only the feed-forward
      term `F * reading`. */
  method FirstOutputIsFeedForward(P: real, I: real, D: real, F: real, reading: real) returns (r: real)
    ensures r == F * reading
  {
    var pid := new CustomPID(P, I, D, F, reading);
    r := pid.Get(reading);
  }
}
