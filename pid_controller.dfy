/**
 * The classical PID controller of components/pid_controller: a controller
 * record updated in place by each computation, with anti-windup clamping of
 * the integral, output clamping and a 10-slot ring of recent measurements.
 * Floats are modelled as reals.
 */
module PidController {

  import opened Wrappers
  import opened Esp
  import opened Seqs

  const HistorySize := 10

  /** pid_config_t. */
  datatype PidConfig = PidConfig(
    kp: real, ki: real, kd: real, setpoint: real,
    outputMin: real, outputMax: real, integralMin: real, integralMax: real)

  /** pid_output_t. */
  datatype PidOutput = PidOutput(pTerm: real, iTerm: real, dTerm: real, output: real, error: real)

  const NoOutput := PidOutput(0.0, 0.0, 0.0, 0.0, 0.0)

  /** First lowered to the maximum, then raised to the minimum, as both clamps of pid_compute do. */
  function Clamp(x: real, lo: real, hi: real): (r: real)
    ensures lo <= hi ==> lo <= r <= hi
    ensures lo <= x <= hi ==> r == x
    ensures lo <= hi && x > hi ==> r == hi
    ensures x < lo ==> r == lo
  {
    var y := if x > hi then hi else x;
    if y < lo then lo else y
  }

  /**
   * One pid_compute from the controller's integral, previous error and
   * whether this is the first sample.
   */
  function PidStep(c: PidConfig, integral: real, prevError: real, first: bool, measured: real, dt: real): (o: PidOutput)
    requires dt > 0.0
  {
    var e := c.setpoint - measured;
    var i := Clamp(integral + c.ki * e * dt, c.integralMin, c.integralMax);
    var d := if first then 0.0 else c.kd * (e - prevError) / dt;
    PidOutput(c.kp * e, i, d, Clamp(c.kp * e + i + d, c.outputMin, c.outputMax), e)
  }

  /** The error is setpoint − measured, P is kp·error, and the kept integral is within its limits. */
  lemma ComputeTerms(c: PidConfig, integral: real, prevError: real, first: bool, measured: real, dt: real)
    requires dt > 0.0 && c.integralMin <= c.integralMax
    ensures var o := PidStep(c, integral, prevError, first, measured, dt);
      o.error == c.setpoint - measured && o.pTerm == c.kp * o.error
      && c.integralMin <= o.iTerm <= c.integralMax
  {
  }

  /** The output never leaves [output_min, output_max]. */
  lemma OutputWithinLimits(c: PidConfig, integral: real, prevError: real, first: bool, measured: real, dt: real)
    requires dt > 0.0 && c.outputMin <= c.outputMax
    ensures c.outputMin <= PidStep(c, integral, prevError, first, measured, dt).output <= c.outputMax
  {
  }

  /** On the first sample the D term is zero, whatever the previous error. */
  lemma FirstSampleHasNoDerivative(c: PidConfig, integral: real, p1: real, p2: real, measured: real, dt: real)
    requires dt > 0.0
    ensures PidStep(c, integral, p1, true, measured, dt).dTerm == 0.0
    ensures PidStep(c, integral, p1, true, measured, dt) == PidStep(c, integral, p2, true, measured, dt)
  {
  }

  /** A pure P controller inside its limits outputs kp·(setpoint − measured). */
  lemma ProportionalOnly(c: PidConfig, prevError: real, first: bool, measured: real, dt: real)
    requires dt > 0.0 && c.ki == 0.0 && c.kd == 0.0
    requires c.integralMin <= 0.0 <= c.integralMax
    requires c.outputMin <= c.kp * (c.setpoint - measured) <= c.outputMax
    ensures PidStep(c, 0.0, prevError, first, measured, dt).output == c.kp * (c.setpoint - measured)
  {
  }

  /** With the error held constant the D term vanishes. */
  lemma ConstantErrorNoDerivative(c: PidConfig, integral: real, measured: real, dt: real)
    requires dt > 0.0
    ensures PidStep(c, integral, c.setpoint - measured, false, measured, dt).dTerm == 0.0
  {
  }

  /** The arithmetic of pid_compute, with both clamps done by reassignment. */
  method StepTerms(c: PidConfig, integral0: real, prevError: real, first: bool, measured: real, dt: real)
    returns (o: PidOutput)
    requires dt > 0.0
    ensures o == PidStep(c, integral0, prevError, first, measured, dt)
  {
    var e := c.setpoint - measured;
    var pTerm := c.kp * e;
    var integral := integral0 + c.ki * e * dt;
    if integral > c.integralMax {
      integral := c.integralMax;
    }
    if integral < c.integralMin {
      integral := c.integralMin;
    }
    var dTerm := 0.0;
    if !first {
      dTerm := c.kd * (e - prevError) / dt;
    }
    var output := pTerm + integral + dTerm;
    if output > c.outputMax {
      output := c.outputMax;
    }
    if output < c.outputMin {
      output := c.outputMin;
    }
    o := PidOutput(pTerm, integral, dTerm, output, e);
  }

  /** pid_controller_t. */
  class Pid {
    var config: PidConfig
    var integral: real
    var prevError: real
    const history: array<real>
    var historyIndex: nat
    var historyCount: nat
    var lastOutput: PidOutput
    var sampleCount: nat
    var initialized: bool

    predicate Valid()
      reads this
    {
      history.Length == HistorySize && RingIndexOk(historyIndex, historyCount, HistorySize)
    }

    /** The measurements in the history ring, oldest first. */
    function Recent(): (r: seq<real>)
      reads this, history
      requires Valid()
      ensures |r| == historyCount
    {
      RingView(history[..], historyIndex, historyCount, HistorySize)
    }

    /** A zeroed record. */
    constructor()
      ensures Valid() && !initialized && Recent() == [] && sampleCount == 0 && fresh(history)
    {
      config := PidConfig(0.0, 0.0, 0.0, 0.0, 0.0, 0.0, 0.0, 0.0);
      integral, prevError := 0.0, 0.0;
      history := new real[HistorySize](_ => 0.0);
      historyIndex, historyCount := 0, 0;
      lastOutput := NoOutput;
      sampleCount := 0;
      initialized := false;
    }

    method ClearHistory()
      requires Valid()
      modifies this, history
      ensures Valid() && Recent() == [] && historyIndex == 0
      ensures forall i :: 0 <= i < HistorySize ==> history[i] == 0.0
      ensures config == old(config) && integral == old(integral) && prevError == old(prevError)
      ensures lastOutput == old(lastOutput) && sampleCount == old(sampleCount) && initialized == old(initialized)
    {
      var a := history;
      for i := 0 to HistorySize
        modifies a
        invariant forall j :: 0 <= j < i ==> a[j] == 0.0
      {
        a[i] := 0.0;
      }
      historyIndex, historyCount := 0, 0;
    }

    /** pid_init: zero the record and keep the configuration; None is a NULL config. */
    method Init(c: Option<PidConfig>) returns (err: Err)
      requires Valid()
      modifies this, history
      ensures Valid()
      ensures c.None? ==> err == ErrInvalidArg && unchanged(this) && unchanged(history)
      ensures c.Some? ==>
        err == Ok && initialized && config == c.value && integral == 0.0 && prevError == 0.0
        && Recent() == [] && lastOutput == NoOutput && sampleCount == 0
    {
      if c.None? {
        return ErrInvalidArg;
      }
      ClearHistory();
      integral, prevError := 0.0, 0.0;
      lastOutput := NoOutput;
      sampleCount := 0;
      config := c.value;
      initialized := true;
      return Ok;
    }

    /** pid_compute; the uninitialised and bad-dt cases leave the record untouched. */
    method Compute(measured: real, dt: real) returns (err: Err, out: PidOutput)
      requires Valid()
      modifies this, history
      ensures Valid()
      ensures !old(initialized) ==> err == ErrInvalidState && unchanged(this) && unchanged(history)
      ensures old(initialized) && dt <= 0.0 ==> err == ErrInvalidArg && unchanged(this) && unchanged(history)
      ensures old(initialized) && dt > 0.0 ==>
        err == Ok
        && out == PidStep(old(config), old(integral), old(prevError), old(sampleCount) == 0, measured, dt)
        && integral == out.iTerm && prevError == out.error && lastOutput == out
        && sampleCount == old(sampleCount) + 1
        && Recent() == PushBounded(old(Recent()), measured, HistorySize)
      ensures config == old(config) && initialized == old(initialized)
    {
      if !initialized {
        return ErrInvalidState, NoOutput;
      }
      if dt <= 0.0 {
        return ErrInvalidArg, NoOutput;
      }
      out := StepTerms(config, integral, prevError, sampleCount == 0, measured, dt);
      integral := out.iTerm;
      lastOutput := out;
      prevError := out.error;
      sampleCount := sampleCount + 1;
      RecordMeasurement(measured);
      err := Ok;
    }

    /** The history update of pid_compute. */
    method RecordMeasurement(measured: real)
      requires Valid()
      modifies this, history
      ensures Valid() && Recent() == PushBounded(old(Recent()), measured, HistorySize)
      ensures config == old(config) && integral == old(integral) && prevError == old(prevError)
      ensures lastOutput == old(lastOutput) && sampleCount == old(sampleCount) && initialized == old(initialized)
    {
      RingPush(history[..], historyIndex, historyCount, HistorySize, measured);
      history[historyIndex] := measured;
      historyIndex := (historyIndex + 1) % HistorySize;
      if historyCount < HistorySize {
        historyCount := historyCount + 1;
      }
    }

    /** pid_reset: integral, previous error, sample count, history and last output go to zero. */
    method Reset() returns (err: Err)
      requires Valid()
      modifies this, history
      ensures Valid()
      ensures !old(initialized) ==> err == ErrInvalidState && unchanged(this) && unchanged(history)
      ensures old(initialized) ==>
        err == Ok && integral == 0.0 && prevError == 0.0 && sampleCount == 0
        && Recent() == [] && historyIndex == 0 && lastOutput == NoOutput
        && (forall i :: 0 <= i < HistorySize ==> history[i] == 0.0)
      ensures config == old(config) && initialized == old(initialized)
    {
      if !initialized {
        return ErrInvalidState;
      }
      integral, prevError := 0.0, 0.0;
      sampleCount := 0;
      ClearHistory();
      lastOutput := NoOutput;
      return Ok;
    }

    method SetTunings(kp: real, ki: real, kd: real) returns (err: Err)
      modifies this
      ensures !old(initialized) ==> err == ErrInvalidState && config == old(config)
      ensures old(initialized) ==> err == Ok && config == old(config).(kp := kp, ki := ki, kd := kd)
      ensures integral == old(integral) && prevError == old(prevError) && sampleCount == old(sampleCount)
      ensures historyIndex == old(historyIndex) && historyCount == old(historyCount)
      ensures lastOutput == old(lastOutput) && initialized == old(initialized)
    {
      if !initialized {
        return ErrInvalidState;
      }
      config := config.(kp := kp, ki := ki, kd := kd);
      return Ok;
    }

    method SetSetpoint(setpoint: real) returns (err: Err)
      modifies this
      ensures !old(initialized) ==> err == ErrInvalidState && config == old(config)
      ensures old(initialized) ==> err == Ok && config == old(config).(setpoint := setpoint)
      ensures integral == old(integral) && prevError == old(prevError) && sampleCount == old(sampleCount)
      ensures historyIndex == old(historyIndex) && historyCount == old(historyCount)
      ensures lastOutput == old(lastOutput) && initialized == old(initialized)
    {
      if !initialized {
        return ErrInvalidState;
      }
      config := config.(setpoint := setpoint);
      return Ok;
    }

    /** pid_set_output_limits: an empty or inverted range is refused. */
    method SetOutputLimits(min: real, max: real) returns (err: Err)
      modifies this
      ensures !old(initialized) ==> err == ErrInvalidState && config == old(config)
      ensures old(initialized) && min >= max ==> err == ErrInvalidArg && config == old(config)
      ensures old(initialized) && min < max ==> err == Ok && config == old(config).(outputMin := min, outputMax := max)
      ensures integral == old(integral) && prevError == old(prevError) && sampleCount == old(sampleCount)
      ensures historyIndex == old(historyIndex) && historyCount == old(historyCount)
      ensures lastOutput == old(lastOutput) && initialized == old(initialized)
    {
      if !initialized {
        return ErrInvalidState;
      }
      if min >= max {
        return ErrInvalidArg;
      }
      config := config.(outputMin := min, outputMax := max);
      return Ok;
    }

    /** pid_get_last_output. */
    function LastOutput(): PidOutput
      reads this
    {
      lastOutput
    }
  }
}
