/**
 * components/sensor_manager: reads with three retries, per-sensor read
 * statistics with an error guard that switches a sensor off for a minute
 * after ten consecutive failures, and offset calibration of pH and EC.
 * Driver results and the clock are parameters.
 */
module SensorManager {

  import opened Wrappers
  import opened Esp

  /** sensor_type_t. */
  const Temperature := 0
  const Humidity := 1
  const Ph := 2
  const Ec := 3
  const Lux := 4
  const Co2 := 5
  const Tvoc := 6
  const SensorTypeCount := 7

  /** Indices into sensor_data_t.valid. */
  const IndexPh := 0
  const IndexEc := 1
  const IndexTemperature := 2
  const IndexHumidity := 3
  const IndexLux := 4
  const IndexCo2 := 5
  const SensorIndexCount := 6

  const RetryCount := 3
  const MaxConsecutiveErrors := 10
  const ErrorRetryIntervalMs := 60000
  const HealthCheckWindow := 50
  const RecentFailureMs := 10000

  /** sensor_stats_t; the success rate is in percent. */
  datatype Stats = Stats(
    totalReads: nat, successfulReads: nat, failedReads: nat,
    lastSuccessMs: nat, lastFailureMs: nat, successRate: real, healthy: bool)

  const ZeroStats := Stats(0, 0, 0, 0, 0, 0.0, false)

  /** One sensor's statistics with its consecutive-error count and disabled-until time. */
  datatype Guard = Guard(stats: Stats, consecutiveErrors: nat, disabledUntilMs: nat)

  const ZeroGuard := Guard(ZeroStats, 0, 0)

  /** sensor_calibration_t. */
  datatype Calibration = Calibration(offset: real, scale: real, calibrated: bool, dateMs: nat)

  const DefaultCalibration := Calibration(0.0, 1.0, false, 0)

  /** What the driver returned on one attempt: a pair (the second is used by SHT3x and CCS811), NaN, or an error. */
  datatype Attempt = Got(a: real, b: real) | NaN | DriverError

  /** sensor_data_t: readings, validity by sensor index, time stamp in microseconds. */
  datatype SensorData = SensorData(
    ph: real, ec: real, temperature: real, humidity: real, lux: real, co2: real,
    valid: seq<bool>, timestampUs: nat)

  const EmptyData := SensorData(0.0, 0.0, 0.0, 0.0, 0.0, 0.0, seq(SensorIndexCount, _ => false), 0)

  /** Elapsed time in uint64 arithmetic: a time stamp ahead of now wraps to a huge difference. */
  predicate LongerAgo(nowMs: nat, thenMs: nat, windowMs: nat)
  {
    thenMs > nowMs || nowMs - thenMs > windowMs
  }

  /** update_stats on one sensor. */
  function UpdateGuard(g: Guard, success: bool, nowMs: nat): (r: Guard)
  {
    var s := g.stats;
    var total := s.totalReads + 1;
    var succ := if success then s.successfulReads + 1 else s.successfulReads;
    var failed := if success then s.failedReads else s.failedReads + 1;
    var lastOk := if success then nowMs else s.lastSuccessMs;
    var lastFail := if success then s.lastFailureMs else nowMs;
    var rate := succ as real / total as real * 100.0;
    var healthy := if total >= HealthCheckWindow then rate >= 80.0 else LongerAgo(nowMs, lastFail, RecentFailureMs);
    var stats := Stats(total, succ, failed, lastOk, lastFail, rate, healthy);
    if success then Guard(stats, 0, 0)
    else if g.consecutiveErrors + 1 >= MaxConsecutiveErrors then Guard(stats, 0, nowMs + ErrorRetryIntervalMs)
    else Guard(stats, g.consecutiveErrors + 1, g.disabledUntilMs)
  }

  /** The counts add up and the error count is below ten (it fits its uint8_t). */
  predicate GuardOk(g: Guard)
  {
    g.stats.totalReads == g.stats.successfulReads + g.stats.failedReads
    && g.consecutiveErrors < MaxConsecutiveErrors
  }

  /** Every update counts one read, and exactly one of success and failure. */
  lemma UpdateKeepsGuardOk(g: Guard, success: bool, nowMs: nat)
    requires GuardOk(g)
    ensures GuardOk(UpdateGuard(g, success, nowMs))
    ensures var r := UpdateGuard(g, success, nowMs);
      r.stats.totalReads == g.stats.totalReads + 1
      && (success ==> r.stats.successfulReads == g.stats.successfulReads + 1 && r.stats.failedReads == g.stats.failedReads)
      && (!success ==> r.stats.failedReads == g.stats.failedReads + 1 && r.stats.successfulReads == g.stats.successfulReads)
  {
  }

  /** is_sensor_enabled at `nowMs`. */
  predicate Enabled(g: Guard, nowMs: nat)
  {
    nowMs >= g.disabledUntilMs
  }

  /** A success re-enables the sensor at once and clears the error count. */
  lemma SuccessReenables(g: Guard, nowMs: nat, laterMs: nat)
    ensures var r := UpdateGuard(g, true, nowMs); r.consecutiveErrors == 0 && Enabled(r, laterMs)
  {
  }

  /** The tenth consecutive failure switches the sensor off for the next 60 s and restarts the count. */
  lemma TenthFailureDisables(g: Guard, nowMs: nat, laterMs: nat)
    requires g.consecutiveErrors == MaxConsecutiveErrors - 1
    ensures var r := UpdateGuard(g, false, nowMs);
      r.consecutiveErrors == 0 && r.disabledUntilMs == nowMs + ErrorRetryIntervalMs
      && (nowMs <= laterMs < nowMs + ErrorRetryIntervalMs ==> !Enabled(r, laterMs))
      && Enabled(r, nowMs + ErrorRetryIntervalMs)
  {
  }

  /** `n` failures in a row. */
  function Failures(g: Guard, n: nat, nowMs: nat): Guard
  {
    if n == 0 then g else UpdateGuard(Failures(g, n - 1, nowMs), false, nowMs)
  }

  /** Fewer than ten failures from a clean count only count up and leave the sensor as enabled as it was. */
  lemma {:induction false} FailuresBelowTenCount(g: Guard, n: nat, nowMs: nat)
    requires g.consecutiveErrors == 0 && n < MaxConsecutiveErrors
    ensures Failures(g, n, nowMs).consecutiveErrors == n
    ensures Failures(g, n, nowMs).disabledUntilMs == g.disabledUntilMs
  {
    if n > 0 {
      FailuresBelowTenCount(g, n - 1, nowMs);
    }
  }

  /** Ten failures from a clean count switch the sensor off for a minute. */
  lemma TenFailuresDisable(g: Guard, nowMs: nat)
    requires g.consecutiveErrors == 0
    ensures Failures(g, MaxConsecutiveErrors, nowMs).disabledUntilMs == nowMs + ErrorRetryIntervalMs
    ensures !Enabled(Failures(g, MaxConsecutiveErrors, nowMs), nowMs)
  {
    FailuresBelowTenCount(g, MaxConsecutiveErrors - 1, nowMs);
  }

  /** Health: a success rate of at least 80% once there are 50 reads; before that, no failure in the last 10 s. */
  lemma HealthRule(g: Guard, success: bool, nowMs: nat)
    ensures var r := UpdateGuard(g, success, nowMs);
      (r.stats.totalReads >= HealthCheckWindow ==> (r.stats.healthy <==> r.stats.successRate >= 80.0))
      && (r.stats.totalReads < HealthCheckWindow && !success ==> !r.stats.healthy)
  {
  }

  /** apply_calibration. */
  function ApplyCalibration(c: Calibration, value: real): (r: real)
    ensures !c.calibrated ==> r == value
  {
    if !c.calibrated then value else value * c.scale + c.offset
  }

  /** The calibration sensor_manager_calibrate_ph and _ec store. */
  function OffsetCalibration(measured: real, actual: real, dateMs: nat): (c: Calibration)
    ensures c.calibrated && c.scale == 1.0
  {
    Calibration(actual - measured, 1.0, true, dateMs)
  }

  /** After calibrating, the measured value reads as the actual one, and every value moves by the same offset. */
  lemma CalibrationRoundTrip(measured: real, actual: real, dateMs: nat, v: real)
    ensures ApplyCalibration(OffsetCalibration(measured, actual, dateMs), measured) == actual
    ensures ApplyCalibration(OffsetCalibration(measured, actual, dateMs), v) - v == actual - measured
  {
  }

  /** The checks a driver result must pass for each sensor of read_all. */
  predicate Accept(sensor: nat, at: Attempt)
  {
    at.Got? &&
    if sensor == Ph then 0.0 <= at.a <= 14.0
    else if sensor == Ec || sensor == Lux then at.a >= 0.0
    else if sensor == Co2 then at.a >= 0.0 && at.b >= 0.0
    else true
  }

  /** The first acceptable result among the first three attempts. */
  function FirstAccepted(sensor: nat, attempts: seq<Attempt>): (r: Option<Attempt>)
    ensures r.Some? ==> Accept(sensor, r.value)
    decreases |attempts|
  {
    if |attempts| == 0 then None
    else if Accept(sensor, attempts[0]) then Some(attempts[0])
    else FirstAccepted(sensor, attempts[1..])
  }

  /** What a retried read returns: an accepted attempt, or None exactly when no attempt is acceptable. */
  lemma {:induction false} FirstAcceptedSound(sensor: nat, attempts: seq<Attempt>)
    ensures var r := FirstAccepted(sensor, attempts);
      (r.Some? ==> Accept(sensor, r.value) && r.value in attempts)
      && (r.None? <==> forall i :: 0 <= i < |attempts| ==> !Accept(sensor, attempts[i]))
  {
    if |attempts| > 0 && !Accept(sensor, attempts[0]) {
      FirstAcceptedSound(sensor, attempts[1..]);
      assert forall i :: 1 <= i < |attempts| ==> attempts[i] == attempts[1..][i - 1];
    }
  }

  /** A pH reading is only ever accepted inside [0, 14]. */
  lemma PhRangeChecked(attempts: seq<Attempt>)
    requires FirstAccepted(Ph, attempts).Some?
    ensures var v := FirstAccepted(Ph, attempts).value; v.Got? && 0.0 <= v.a <= 14.0
  {
    FirstAcceptedSound(Ph, attempts);
  }

  function Min(a: nat, b: nat): nat { if a < b then a else b }

  /** The attempt a retried read settles on: the first acceptable one of the first three. */
  function Retried(sensor: nat, attempts: seq<Attempt>): Option<Attempt>
  {
    FirstAccepted(sensor, attempts[..Min(RetryCount, |attempts|)])
  }

  /** Whether a retried read succeeds: the sensor is switched on (CCS811 always is) and an attempt is acceptable. */
  predicate ReadOk(sensor: nat, g: Guard, attempts: seq<Attempt>, nowMs: nat)
  {
    (sensor == Co2 || Enabled(g, nowMs)) && Retried(sensor, attempts).Some?
  }

  /** The retry loop of read_*_with_retry: at most three attempts, the first acceptable one wins. */
  method ReadWithRetry(sensor: nat, attempts: seq<Attempt>) returns (ok: bool, at: Attempt)
    ensures var f := Retried(sensor, attempts);
      (ok <==> f.Some?) && (ok ==> at == f.value)
  {
    var n := Min(RetryCount, |attempts|);
    var i := 0;
    while i < n
      invariant 0 <= i <= n
      invariant FirstAccepted(sensor, attempts[..n]) == FirstAccepted(sensor, attempts[i..n])
    {
      assert attempts[i..n][1..] == attempts[i + 1..n];
      if Accept(sensor, attempts[i]) {
        return true, attempts[i];
      }
      i := i + 1;
    }
    return false, DriverError;
  }

  class Manager {
    var initialized: bool
    var cached: SensorData
    const guards: array<Guard>
    const calibrations: array<Calibration>

    predicate Valid()
      reads this, guards
    {
      guards.Length == SensorTypeCount && calibrations.Length == SensorTypeCount
      && |cached.valid| == SensorIndexCount
      && forall i :: 0 <= i < SensorTypeCount ==> GuardOk(guards[i])
    }

    constructor()
      ensures Valid() && !initialized && fresh(guards) && fresh(calibrations)
    {
      initialized := false;
      cached := EmptyData;
      guards := new Guard[SensorTypeCount](_ => ZeroGuard);
      calibrations := new Calibration[SensorTypeCount](_ => DefaultCalibration);
    }

    /** sensor_manager_init: statistics, cache and calibrations back to their defaults. */
    method Init() returns (err: Err)
      requires Valid()
      modifies this, guards, calibrations
      ensures Valid() && err == Ok && initialized
      ensures !old(initialized) ==>
        cached == EmptyData
        && (forall i :: 0 <= i < SensorTypeCount ==> guards[i] == ZeroGuard && calibrations[i] == DefaultCalibration)
      ensures old(initialized) ==> unchanged(this) && unchanged(guards) && unchanged(calibrations)
    {
      if initialized {
        return Ok;
      }
      cached := EmptyData;
      ResetTables();
      initialized := true;
      return Ok;
    }

    /** The memsets and the default-calibration loop of sensor_manager_init. */
    method ResetTables()
      requires guards.Length == SensorTypeCount && calibrations.Length == SensorTypeCount
      modifies guards, calibrations
      ensures forall i :: 0 <= i < SensorTypeCount ==> guards[i] == ZeroGuard && calibrations[i] == DefaultCalibration
    {
      var g := guards;
      var c := calibrations;
      for i := 0 to SensorTypeCount
        modifies g, c
        invariant forall j :: 0 <= j < i ==> g[j] == ZeroGuard && c[j] == DefaultCalibration
      {
        g[i] := ZeroGuard;
        c[i] := DefaultCalibration;
      }
    }

    /** update_stats: an out-of-range sensor changes nothing. */
    method UpdateStats(sensor: nat, success: bool, nowMs: nat)
      requires Valid()
      modifies guards
      ensures Valid()
      ensures sensor < SensorTypeCount ==> guards[sensor] == UpdateGuard(old(guards[sensor]), success, nowMs)
      ensures forall j :: 0 <= j < SensorTypeCount && j != sensor ==> guards[j] == old(guards[j])
    {
      if sensor >= SensorTypeCount {
        return;
      }
      UpdateKeepsGuardOk(guards[sensor], success, nowMs);
      guards[sensor] := UpdateGuard(guards[sensor], success, nowMs);
    }

    /** is_sensor_enabled: an out-of-range sensor is never enabled. */
    function IsSensorEnabled(sensor: nat, nowMs: nat): (r: bool)
      requires Valid()
      reads this, guards
      ensures r <==> sensor < SensorTypeCount && nowMs >= guards[sensor].disabledUntilMs
    {
      sensor < SensorTypeCount && Enabled(guards[sensor], nowMs)
    }

    /** One sensor's retried read: skipped while the guard has it switched off (CCS811 is never skipped). */
    method ReadSensor(sensor: nat, attempts: seq<Attempt>, nowMs: nat) returns (ok: bool, value: Attempt)
      requires Valid() && sensor < SensorTypeCount
      ensures ok == ReadOk(sensor, guards[sensor], attempts, nowMs)
      ensures ok ==> value == Retried(sensor, attempts).value && value.Got?
    {
      if sensor != Co2 && !IsSensorEnabled(sensor, nowMs) {
        return false, DriverError;
      }
      ok, value := ReadWithRetry(sensor, attempts);
    }

    /**
     * One read_*_with_retry followed by its update_stats calls: `sensor` is
     * counted and, for SHT3x and CCS811, also `partner` (humidity, TVOC).
     */
    method ReadCounted(sensor: nat, partner: nat, attempts: seq<Attempt>, nowMs: nat) returns (ok: bool, at: Attempt)
      requires Valid() && sensor < SensorTypeCount && partner < SensorTypeCount
      modifies guards
      ensures Valid()
      ensures ok == ReadOk(sensor, old(guards[sensor]), attempts, nowMs)
      ensures ok ==> at == Retried(sensor, attempts).value && at.Got?
      ensures guards[sensor] == UpdateGuard(old(guards[sensor]), ok, nowMs)
      ensures partner != sensor ==> guards[partner] == UpdateGuard(old(guards[partner]), ok, nowMs)
      ensures forall j :: 0 <= j < SensorTypeCount && j != sensor && j != partner ==> guards[j] == old(guards[j])
    {
      ok, at := ReadSensor(sensor, attempts, nowMs);
      UpdateStats(sensor, ok, nowMs);
      if partner != sensor {
        UpdateStats(partner, ok, nowMs);
      }
    }

    /** The five retried reads of read_all, in its order, each counted. */
    method ReadSensors(sht: seq<Attempt>, phIn: seq<Attempt>, ecIn: seq<Attempt>, luxIn: seq<Attempt>,
                       ccs: seq<Attempt>, nowMs: nat)
      returns (okT: bool, t: Attempt, okP: bool, p: Attempt, okE: bool, e: Attempt,
               okL: bool, l: Attempt, okC: bool, c: Attempt)
      requires Valid()
      modifies guards
      ensures Valid()
      ensures okT == ReadOk(Temperature, old(guards[Temperature]), sht, nowMs) && (okT ==> t == Retried(Temperature, sht).value)
      ensures okP == ReadOk(Ph, old(guards[Ph]), phIn, nowMs) && (okP ==> p == Retried(Ph, phIn).value)
      ensures okE == ReadOk(Ec, old(guards[Ec]), ecIn, nowMs) && (okE ==> e == Retried(Ec, ecIn).value)
      ensures okL == ReadOk(Lux, old(guards[Lux]), luxIn, nowMs) && (okL ==> l == Retried(Lux, luxIn).value)
      ensures okC == ReadOk(Co2, old(guards[Co2]), ccs, nowMs) && (okC ==> c == Retried(Co2, ccs).value)
      ensures guards[Temperature] == UpdateGuard(old(guards[Temperature]), okT, nowMs)
      ensures guards[Humidity] == UpdateGuard(old(guards[Humidity]), okT, nowMs)
      ensures guards[Ph] == UpdateGuard(old(guards[Ph]), okP, nowMs)
      ensures guards[Ec] == UpdateGuard(old(guards[Ec]), okE, nowMs)
      ensures guards[Lux] == UpdateGuard(old(guards[Lux]), okL, nowMs)
      ensures guards[Co2] == UpdateGuard(old(guards[Co2]), okC, nowMs)
      ensures guards[Tvoc] == UpdateGuard(old(guards[Tvoc]), okC, nowMs)
    {
      okT, t := ReadCounted(Temperature, Humidity, sht, nowMs);
      okP, p := ReadCounted(Ph, Ph, phIn, nowMs);
      okE, e := ReadCounted(Ec, Ec, ecIn, nowMs);
      okL, l := ReadCounted(Lux, Lux, luxIn, nowMs);
      okC, c := ReadCounted(Co2, Tvoc, ccs, nowMs);
    }

    /**
     * sensor_manager_read_all: every sensor read and counted, the cache's
     * validity flags set from the results, OK iff at least one sensor was read.
     */
    method ReadAll(sht: seq<Attempt>, phIn: seq<Attempt>, ecIn: seq<Attempt>, luxIn: seq<Attempt>,
                   ccs: seq<Attempt>, nowUs: nat) returns (err: Err, data: SensorData)
      requires Valid()
      modifies this`cached, guards
      ensures Valid()
      ensures !old(initialized) ==> err == ErrInvalidState && unchanged(this) && unchanged(guards)
      ensures old(initialized) ==>
        var nowMs := nowUs / 1000;
        var okT := ReadOk(Temperature, old(guards[Temperature]), sht, nowMs);
        var okP := ReadOk(Ph, old(guards[Ph]), phIn, nowMs);
        var okE := ReadOk(Ec, old(guards[Ec]), ecIn, nowMs);
        var okL := ReadOk(Lux, old(guards[Lux]), luxIn, nowMs);
        var okC := ReadOk(Co2, old(guards[Co2]), ccs, nowMs);
        (err == Ok <==> okT || okP || okE || okL || okC) && (err != Ok ==> err == Fail)
        && data == cached && data.timestampUs == nowUs
        && data.valid == [okP, okE, okT, okT, okL, okC]
      ensures old(initialized) ==>
        var nowMs := nowUs / 1000;
        var okT := ReadOk(Temperature, old(guards[Temperature]), sht, nowMs);
        var okP := ReadOk(Ph, old(guards[Ph]), phIn, nowMs);
        var okE := ReadOk(Ec, old(guards[Ec]), ecIn, nowMs);
        var okL := ReadOk(Lux, old(guards[Lux]), luxIn, nowMs);
        var okC := ReadOk(Co2, old(guards[Co2]), ccs, nowMs);
        data.temperature == (if okT then Retried(Temperature, sht).value.a else old(cached).temperature)
        && data.humidity == (if okT then Retried(Temperature, sht).value.b else old(cached).humidity)
        && data.ph == (if okP then ApplyCalibration(calibrations[Ph], Retried(Ph, phIn).value.a) else old(cached).ph)
        && data.ec == (if okE then ApplyCalibration(calibrations[Ec], Retried(Ec, ecIn).value.a) else old(cached).ec)
        && data.lux == (if okL then Retried(Lux, luxIn).value.a else old(cached).lux)
        && data.co2 == (if okC then Retried(Co2, ccs).value.a else old(cached).co2)
      ensures old(initialized) ==>
        var nowMs := nowUs / 1000;
        var okT := ReadOk(Temperature, old(guards[Temperature]), sht, nowMs);
        var okP := ReadOk(Ph, old(guards[Ph]), phIn, nowMs);
        var okE := ReadOk(Ec, old(guards[Ec]), ecIn, nowMs);
        var okL := ReadOk(Lux, old(guards[Lux]), luxIn, nowMs);
        var okC := ReadOk(Co2, old(guards[Co2]), ccs, nowMs);
        guards[Temperature] == UpdateGuard(old(guards[Temperature]), okT, nowMs)
        && guards[Humidity] == UpdateGuard(old(guards[Humidity]), okT, nowMs)
        && guards[Ph] == UpdateGuard(old(guards[Ph]), okP, nowMs)
        && guards[Ec] == UpdateGuard(old(guards[Ec]), okE, nowMs)
        && guards[Lux] == UpdateGuard(old(guards[Lux]), okL, nowMs)
        && guards[Co2] == UpdateGuard(old(guards[Co2]), okC, nowMs)
        && guards[Tvoc] == UpdateGuard(old(guards[Tvoc]), okC, nowMs)
      ensures initialized == old(initialized)
    {
      if !initialized {
        return ErrInvalidState, cached;
      }
      var nowMs := nowUs / 1000;
      var okT, t, okP, p, okE, e, okL, l, okC, c := ReadSensors(sht, phIn, ecIn, luxIn, ccs, nowMs);
      cached := cached.(
        temperature := if okT then t.a else cached.temperature,
        humidity := if okT then t.b else cached.humidity,
        ph := if okP then ApplyCalibration(calibrations[Ph], p.a) else cached.ph,
        ec := if okE then ApplyCalibration(calibrations[Ec], e.a) else cached.ec,
        lux := if okL then l.a else cached.lux,
        co2 := if okC then c.a else cached.co2,
        valid := [okP, okE, okT, okT, okL, okC], timestampUs := nowUs);
      data := cached;
      err := if okT || okP || okE || okL || okC then Ok else Fail;
    }

    /** sensor_manager_read_ph: the calibrated value is cached only on success; the read is counted either way. */
    method ReadPh(attempts: seq<Attempt>, nowUs: nat) returns (err: Err, ph: real)
      requires Valid()
      modifies this, guards
      ensures Valid()
      ensures !old(initialized) ==> err == ErrInvalidState && unchanged(this) && unchanged(guards)
      ensures old(initialized) ==>
        var f := Retried(Ph, attempts);
        var ok := Enabled(old(guards[Ph]), nowUs / 1000) && f.Some?;
        (err == Ok <==> ok) && (err != Ok ==> err == Fail)
        && (ok ==> f.value.Got? && 0.0 <= f.value.a <= 14.0 && ph == ApplyCalibration(calibrations[Ph], f.value.a)
                   && cached == old(cached).(ph := ph, valid := old(cached).valid[IndexPh := true], timestampUs := nowUs))
        && (!ok ==> cached == old(cached))
        && guards[Ph] == UpdateGuard(old(guards[Ph]), ok, nowUs / 1000)
        && forall j :: 0 <= j < SensorTypeCount && j != Ph ==> guards[j] == old(guards[j])
      ensures initialized == old(initialized)
    {
      if !initialized {
        return ErrInvalidState, 0.0;
      }
      var ok, at := ReadSensor(Ph, attempts, nowUs / 1000);
      ph := 0.0;
      if ok {
        PhRangeChecked(attempts[..Min(RetryCount, |attempts|)]);
        ph := ApplyCalibration(calibrations[Ph], at.a);
        cached := cached.(ph := ph, valid := cached.valid[IndexPh := true], timestampUs := nowUs);
      }
      UpdateStats(Ph, ok, nowUs / 1000);
      err := if ok then Ok else Fail;
    }

    /** sensor_manager_is_sensor_healthy. */
    function IsSensorHealthy(sensor: nat): (r: bool)
      requires Valid()
      reads this, guards
      ensures r <==> initialized && sensor < SensorTypeCount && guards[sensor].stats.healthy
    {
      initialized && sensor < SensorTypeCount && guards[sensor].stats.healthy
    }

    /** sensor_manager_calibrate_ph and _ec: offset = actual - measured, scale 1. */
    method Calibrate(sensor: nat, measured: real, actual: real, nowMs: nat) returns (err: Err)
      requires Valid() && (sensor == Ph || sensor == Ec)
      modifies calibrations
      ensures Valid()
      ensures !initialized ==> err == ErrInvalidState && unchanged(calibrations)
      ensures initialized ==>
        err == Ok && calibrations[sensor] == OffsetCalibration(measured, actual, nowMs)
        && ApplyCalibration(calibrations[sensor], measured) == actual
      ensures forall j :: 0 <= j < SensorTypeCount && j != sensor ==> calibrations[j] == old(calibrations[j])
    {
      if !initialized {
        return ErrInvalidState;
      }
      calibrations[sensor] := OffsetCalibration(measured, actual, nowMs);
      CalibrationRoundTrip(measured, actual, nowMs, measured);
      return Ok;
    }

    /** sensor_manager_get_calibration. */
    function GetCalibration(sensor: nat): (r: Option<Calibration>)
      requires Valid()
      reads this, guards, calibrations
      ensures r.Some? <==> initialized && sensor < SensorTypeCount
      ensures r.Some? ==> r.value == calibrations[sensor]
    {
      if !initialized || sensor >= SensorTypeCount then None else Some(calibrations[sensor])
    }

    /** sensor_manager_reset_stats: the statistics go to zero; the error guard is left as it is. */
    method ResetStats(sensor: nat) returns (err: Err)
      requires Valid()
      modifies guards
      ensures Valid()
      ensures !initialized || sensor >= SensorTypeCount ==> err == ErrInvalidArg && unchanged(guards)
      ensures initialized && sensor < SensorTypeCount ==>
        err == Ok && guards[sensor] == old(guards[sensor]).(stats := ZeroStats)
      ensures forall j :: 0 <= j < SensorTypeCount && j != sensor ==> guards[j] == old(guards[j])
    {
      if !initialized || sensor >= SensorTypeCount {
        return ErrInvalidArg;
      }
      guards[sensor] := guards[sensor].(stats := ZeroStats);
      return Ok;
    }
  }
}
