/**
 * The sensor bookkeeping of components/system_tasks: the latched failure
 * alarms of read_all_sensors, the per-sensor failure streaks of the task
 * context, the fallback values, and the sensor-cycle statistics.  The
 * FreeRTOS tasks themselves are not modelled; the sensor interface's
 * results are parameters.
 */
module SystemTasks {

  import opened Wrappers
  import opened Esp

  /** sensor_index_t. */
  const IndexPh := 0
  const IndexEc := 1
  const IndexTemperature := 2
  const IndexHumidity := 3
  const IndexLux := 4
  const IndexCo2 := 5
  const SensorCount := 6

  const FailureThreshold := 5
  const U32Max := 0xFFFF_FFFF

  /** PH_TARGET_DEFAULT … CO2_TARGET_DEFAULT, by sensor index. */
  const DefaultTargets: seq<real> := [6.8, 1.5, 24.0, 70.0, 500.0, 450.0]

  /** sensor_failure_counters / _events / _active for one sensor. */
  datatype Fault = Fault(counter: nat, events: nat, active: bool)

  /** sensor_failure_total / _streak / sensor_fault_active of the task context for one sensor. */
  datatype Streak = Streak(total: nat, streak: nat, faultActive: bool)

  /**
   * What a call reports to the notification system and the data logger:
   * the alarm and recovery of register_sensor_failure / _recovery, and the
   * WARNING and INFO notices of sensor_update_failure / _success.
   */
  datatype Notice = FailureAlarm(sensor: nat) | Recovered(sensor: nat)
                  | StreakWarning(sensor: nat) | StreakRecovered(sensor: nat)

  /** register_sensor_failure on one sensor: the counter grows; the alarm latches once at five. */
  function RegisterFailure(f: Fault): (r: Fault)
  {
    var c := f.counter + 1;
    if !f.active && c >= FailureThreshold then Fault(c, f.events + 1, true) else Fault(c, f.events, f.active)
  }

  /** Whether register_sensor_failure raises its alarm. */
  predicate RaisesAlarm(f: Fault)
  {
    !f.active && f.counter + 1 >= FailureThreshold
  }

  /** The notice one sensor's read raises: a recovery of a latched alarm, or the alarm that latches now. */
  function NoticeOf(index: nat, ok: bool, f: Fault): (r: seq<Notice>)
    ensures |r| <= 1
    ensures ok ==> (r != [] <==> f.active) && (r != [] ==> r == [Recovered(index)])
    ensures !ok ==> (r != [] <==> RaisesAlarm(f)) && (r != [] ==> r == [FailureAlarm(index)])
  {
    if ok then (if f.active then [Recovered(index)] else [])
    else if RaisesAlarm(f) then [FailureAlarm(index)] else []
  }

  /** register_sensor_recovery on one sensor: the latch and the counter are cleared. */
  function RegisterRecovery(f: Fault): (r: Fault)
    ensures !r.active && r.counter == 0 && r.events == f.events
  {
    Fault(0, f.events, false)
  }

  /** `n` failed reads in a row. */
  function Failures(f: Fault, n: nat): Fault
  {
    if n == 0 then f else RegisterFailure(Failures(f, n - 1))
  }

  /** From a cleared sensor, n failures latch the alarm iff n >= 5, and count exactly one event once latched. */
  lemma {:induction false} AlarmLatchesOnce(f: Fault, n: nat)
    requires f.counter == 0 && !f.active
    ensures Failures(f, n).counter == n
    ensures Failures(f, n).active <==> n >= FailureThreshold
    ensures Failures(f, n).events == f.events + (if n >= FailureThreshold then 1 else 0)
  {
    if n > 0 {
      AlarmLatchesOnce(f, n - 1);
    }
  }

  /** A latched alarm is not raised again by further failures. */
  lemma LatchedRaisesNothing(f: Fault)
    requires f.active
    ensures !RaisesAlarm(f) && RegisterFailure(f).events == f.events && RegisterFailure(f).active
  {
  }

  /** sensor_update_failure on one sensor. */
  function UpdateFailure(s: Streak): (r: Streak)
  {
    var streak := s.streak + 1;
    Streak(s.total + 1, streak, s.faultActive || streak >= FailureThreshold)
  }

  /** sensor_update_success on one sensor: the streak and the fault are cleared; the total is kept. */
  function UpdateSuccess(s: Streak): (r: Streak)
    ensures r.streak == 0 && !r.faultActive && r.total == s.total
  {
    Streak(s.total, 0, false)
  }

  /** The INFO notice of sensor_update_success: sent exactly when the streak's fault was active. */
  function StreakSuccessNotice(index: nat, s: Streak): (r: seq<Notice>)
    ensures (r != [] <==> s.faultActive) && (r != [] ==> r == [StreakRecovered(index)])
  {
    if s.faultActive then [StreakRecovered(index)] else []
  }

  /** The WARNING of sensor_update_failure: sent when the fault is not yet active and the streak reaches five. */
  function StreakFailureNotice(index: nat, s: Streak): (r: seq<Notice>)
  {
    if !s.faultActive && s.streak + 1 >= FailureThreshold then [StreakWarning(index)] else []
  }

  /** The warning is sent exactly by the failure that switches the streak's fault on, so once per fault. */
  lemma StreakWarningOncePerFault(index: nat, s: Streak)
    ensures StreakFailureNotice(index, s) != [] <==> !s.faultActive && UpdateFailure(s).faultActive
    ensures StreakFailureNotice(index, s) != [] ==> StreakFailureNotice(index, UpdateFailure(s)) == []
    ensures StreakFailureNotice(index, s) == [] || StreakFailureNotice(index, s) == [StreakWarning(index)]
  {
  }

  /** The notices of one sensor's part of read_all_sensors: the streak's recovery first, then the alarm's. */
  function ReadNotices(index: nat, ok: bool, withStreak: bool, f: Fault, s: Streak): (r: seq<Notice>)
    ensures ok && withStreak ==> r == StreakSuccessNotice(index, s) + NoticeOf(index, ok, f)
    ensures !(ok && withStreak) ==> r == NoticeOf(index, ok, f)
  {
    (if ok && withStreak then StreakSuccessNotice(index, s) else []) + NoticeOf(index, ok, f)
  }

  /**
   * read_all_sensors never calls sensor_update_failure, so a read only ever
   * clears a streak fault: one that is off stays off, and the read sends no
   * streak recovery notice.
   */
  lemma ReadsKeepStreakFaultOff(index: nat, ok: bool, f: Fault, s: Streak)
    requires !s.faultActive
    ensures !(if ok then UpdateSuccess(s) else s).faultActive
    ensures ReadNotices(index, ok, true, f, s) == NoticeOf(index, ok, f)
  {
  }

  /** A failure counts once in the total and the streak, and the fault is active iff it was or the streak reached five. */
  lemma UpdateFailureRule(s: Streak)
    ensures var r := UpdateFailure(s);
      r.total == s.total + 1 && r.streak == s.streak + 1
      && (r.faultActive <==> s.faultActive || s.streak + 1 >= FailureThreshold)
  {
  }

  /** One cycle's readings by sensor index; None stands for the NAN a failed sensor gets. */
  datatype Readings = Readings(values: seq<Option<real>>, timestampUs: nat)

  predicate ReadingsOk(d: Readings)
  {
    |d.values| == SensorCount
  }

  /** The valid[] flags of a reading. */
  function ValidFlags(d: Readings): (v: seq<bool>)
    requires ReadingsOk(d)
    ensures |v| == SensorCount && forall i :: 0 <= i < SensorCount ==> (v[i] <==> d.values[i].Some?)
  {
    seq(SensorCount, i requires 0 <= i < SensorCount => d.values[i].Some?)
  }

  /** What the sensor interface returned in one read_all_sensors; None is a failed read or a missing function. */
  datatype Inputs = Inputs(tempHum: Option<(real, real)>, ph: Option<real>, ec: Option<real>,
                           lux: Option<real>, co2: Option<real>)

  /** The readings read_all_sensors produces from the interface's results. */
  function ReadingsOf(i: Inputs, nowUs: nat): (d: Readings)
    ensures ReadingsOk(d)
  {
    Readings([i.ph, i.ec,
              if i.tempHum.Some? then Some(i.tempHum.value.0) else None,
              if i.tempHum.Some? then Some(i.tempHum.value.1) else None,
              i.lux, i.co2], nowUs)
  }

  /** read_all_sensors succeeds iff at least one value was read. */
  predicate AnyRead(i: Inputs)
  {
    i.tempHum.Some? || i.ph.Some? || i.ec.Some? || i.lux.Some? || i.co2.Some?
  }

  /** Exactly the sensors that read a value are valid, and some is valid iff something was read. */
  lemma ReadingsMatchInputs(i: Inputs, nowUs: nat)
    ensures var v := ValidFlags(ReadingsOf(i, nowUs));
      (v[IndexTemperature] <==> i.tempHum.Some?) && (v[IndexHumidity] <==> i.tempHum.Some?)
      && (v[IndexPh] <==> i.ph.Some?) && (v[IndexEc] <==> i.ec.Some?)
      && (v[IndexLux] <==> i.lux.Some?) && (v[IndexCo2] <==> i.co2.Some?)
      && (AnyRead(i) <==> exists k :: 0 <= k < SensorCount && v[k])
  {
    var v := ValidFlags(ReadingsOf(i, nowUs));
    if i.tempHum.Some? {
      assert v[IndexTemperature];
    } else if i.ph.Some? {
      assert v[IndexPh];
    } else if i.ec.Some? {
      assert v[IndexEc];
    } else if i.lux.Some? {
      assert v[IndexLux];
    } else if i.co2.Some? {
      assert v[IndexCo2];
    }
  }

  class Tasks {
    const faults: array<Fault>
    const streaks: array<Streak>
    var sensorDataValid: bool
    var lastData: Readings
    var configValid: bool
    var configTargets: seq<real>
    var totalCycles: nat
    var successfulCycles: nat
    var failedCycles: nat
    var maxCycleMs: nat
    var minCycleMs: nat
    var notices: seq<Notice>

    predicate Valid()
      reads this
    {
      faults.Length == SensorCount && streaks.Length == SensorCount
      && ReadingsOk(lastData) && |configTargets| == SensorCount
      && totalCycles == successfulCycles + failedCycles
      && minCycleMs <= U32Max && (totalCycles == 0 ==> minCycleMs == U32Max)
    }

    constructor()
      ensures Valid() && !sensorDataValid && !configValid && totalCycles == 0 && notices == []
      ensures forall k :: 0 <= k < SensorCount ==> faults[k] == Fault(0, 0, false) && streaks[k] == Streak(0, 0, false)
    {
      faults := new Fault[SensorCount](_ => Fault(0, 0, false));
      streaks := new Streak[SensorCount](_ => Streak(0, 0, false));
      sensorDataValid := false;
      lastData := Readings(seq(SensorCount, _ => None), 0);
      configValid := false;
      configTargets := DefaultTargets;
      totalCycles, successfulCycles, failedCycles := 0, 0, 0;
      maxCycleMs, minCycleMs := 0, U32Max;
      notices := [];
    }

    /** register_sensor_failure: an out-of-range index is ignored. */
    method RegisterSensorFailure(index: nat)
      requires Valid()
      modifies this, faults
      ensures Valid()
      ensures index < SensorCount ==> faults[index] == RegisterFailure(old(faults[index]))
      ensures index < SensorCount && RaisesAlarm(old(faults[index])) ==> notices == old(notices) + [FailureAlarm(index)]
      ensures index >= SensorCount || !RaisesAlarm(old(faults[index])) ==> notices == old(notices)
      ensures forall k :: 0 <= k < SensorCount && k != index ==> faults[k] == old(faults[k])
      ensures unchanged(streaks) && sensorDataValid == old(sensorDataValid) && lastData == old(lastData)
      ensures configValid == old(configValid) && configTargets == old(configTargets) && totalCycles == old(totalCycles)
      ensures successfulCycles == old(successfulCycles) && minCycleMs == old(minCycleMs) && maxCycleMs == old(maxCycleMs)
    {
      if index >= SensorCount {
        return;
      }
      if RaisesAlarm(faults[index]) {
        notices := notices + [FailureAlarm(index)];
      }
      faults[index] := RegisterFailure(faults[index]);
    }

    /** register_sensor_recovery: a recovery is reported only when the alarm was latched. */
    method RegisterSensorRecovery(index: nat)
      requires Valid()
      modifies this, faults
      ensures Valid()
      ensures index < SensorCount ==> faults[index] == RegisterRecovery(old(faults[index]))
      ensures index < SensorCount && old(faults[index].active) ==> notices == old(notices) + [Recovered(index)]
      ensures index >= SensorCount || !old(faults[index].active) ==> notices == old(notices)
      ensures forall k :: 0 <= k < SensorCount && k != index ==> faults[k] == old(faults[k])
      ensures unchanged(streaks) && sensorDataValid == old(sensorDataValid) && lastData == old(lastData)
      ensures configValid == old(configValid) && configTargets == old(configTargets) && totalCycles == old(totalCycles)
      ensures successfulCycles == old(successfulCycles) && minCycleMs == old(minCycleMs) && maxCycleMs == old(maxCycleMs)
    {
      if index >= SensorCount {
        return;
      }
      if faults[index].active {
        notices := notices + [Recovered(index)];
      }
      faults[index] := RegisterRecovery(faults[index]);
    }

    /** get_sensor_target: the active configuration's target when it is valid, else the default. */
    function Target(index: nat): (t: real)
      requires Valid() && index < SensorCount
      reads this
      ensures configValid ==> t == configTargets[index]
      ensures !configValid ==> t == DefaultTargets[index]
    {
      if configValid then configTargets[index] else DefaultTargets[index]
    }

    /** get_last_sensor_value: the target until a cycle has produced data. */
    function LastValue(index: nat): (v: Option<real>)
      requires Valid() && index < SensorCount
      reads this
      ensures !sensorDataValid ==> v == Some(Target(index))
      ensures sensorDataValid ==> v == lastData.values[index]
    {
      if !sensorDataValid then Some(Target(index)) else lastData.values[index]
    }

    /** get_sensor_fallback: the same value as get_last_sensor_value. */
    function Fallback(index: nat): (v: Option<real>)
      requires Valid() && index < SensorCount
      reads this
      ensures v == LastValue(index)
    {
      if !sensorDataValid then Some(Target(index)) else LastValue(index)
    }

    /** sensor_update_success. */
    method SensorUpdateSuccess(index: nat)
      requires Valid()
      modifies this`notices, streaks
      ensures index < SensorCount ==> streaks[index] == UpdateSuccess(old(streaks[index]))
      ensures index < SensorCount ==> notices == old(notices) + StreakSuccessNotice(index, old(streaks[index]))
      ensures index >= SensorCount ==> notices == old(notices)
      ensures forall k :: 0 <= k < SensorCount && k != index ==> streaks[k] == old(streaks[k])
    {
      if index >= SensorCount {
        return;
      }
      notices := notices + StreakSuccessNotice(index, streaks[index]);
      streaks[index] := UpdateSuccess(streaks[index]);
    }

    /** sensor_update_failure. */
    method SensorUpdateFailure(index: nat)
      requires Valid()
      modifies this`notices, streaks
      ensures index < SensorCount ==> streaks[index] == UpdateFailure(old(streaks[index]))
      ensures index < SensorCount ==> notices == old(notices) + StreakFailureNotice(index, old(streaks[index]))
      ensures index >= SensorCount ==> notices == old(notices)
      ensures forall k :: 0 <= k < SensorCount && k != index ==> streaks[k] == old(streaks[k])
    {
      if index >= SensorCount {
        return;
      }
      notices := notices + StreakFailureNotice(index, streaks[index]);
      streaks[index] := UpdateFailure(streaks[index]);
    }

    /** One sensor's part of read_all_sensors: a value clears the alarm (and the streak), no value counts a failure. */
    method Account(index: nat, ok: bool, withStreak: bool)
      requires Valid() && index < SensorCount
      modifies this, faults, streaks
      ensures Valid()
      ensures ok ==> faults[index] == RegisterRecovery(old(faults[index]))
      ensures !ok ==> faults[index] == RegisterFailure(old(faults[index]))
      ensures streaks[index] == if ok && withStreak then UpdateSuccess(old(streaks[index])) else old(streaks[index])
      ensures notices == old(notices) + ReadNotices(index, ok, withStreak, old(faults[index]), old(streaks[index]))
      ensures forall k :: 0 <= k < SensorCount && k != index ==> faults[k] == old(faults[k]) && streaks[k] == old(streaks[k])
      ensures sensorDataValid == old(sensorDataValid) && lastData == old(lastData) && configValid == old(configValid)
      ensures configTargets == old(configTargets) && totalCycles == old(totalCycles)
      ensures successfulCycles == old(successfulCycles) && minCycleMs == old(minCycleMs) && maxCycleMs == old(maxCycleMs)
    {
      if ok {
        if withStreak {
          SensorUpdateSuccess(index);
        }
        RegisterSensorRecovery(index);
      } else {
        RegisterSensorFailure(index);
      }
    }

    /**
     * read_all_sensors: every sensor read once; failed sensors are NAN; OK iff
     * something was read.  Temperature and humidity do not touch the streaks.
     */
    method ReadAllSensors(interfacePresent: bool, i: Inputs, nowUs: nat) returns (err: Err, data: Readings)
      requires Valid()
      modifies this, faults, streaks
      ensures Valid()
      ensures !interfacePresent ==> err == ErrInvalidState && unchanged(faults) && unchanged(streaks) && notices == old(notices)
      ensures interfacePresent ==>
        notices == old(notices) + NoticeOf(IndexTemperature, i.tempHum.Some?, old(faults[IndexTemperature]))
                   + NoticeOf(IndexHumidity, i.tempHum.Some?, old(faults[IndexHumidity]))
                   + ReadNotices(IndexPh, i.ph.Some?, true, old(faults[IndexPh]), old(streaks[IndexPh]))
                   + ReadNotices(IndexEc, i.ec.Some?, true, old(faults[IndexEc]), old(streaks[IndexEc]))
                   + ReadNotices(IndexLux, i.lux.Some?, true, old(faults[IndexLux]), old(streaks[IndexLux]))
                   + ReadNotices(IndexCo2, i.co2.Some?, true, old(faults[IndexCo2]), old(streaks[IndexCo2]))
      ensures interfacePresent ==>
        data == ReadingsOf(i, nowUs) && (err == Ok <==> AnyRead(i)) && (err != Ok ==> err == Fail)
        && faults[IndexTemperature] == (if i.tempHum.Some? then RegisterRecovery(old(faults[IndexTemperature]))
                                        else RegisterFailure(old(faults[IndexTemperature])))
        && faults[IndexHumidity] == (if i.tempHum.Some? then RegisterRecovery(old(faults[IndexHumidity]))
                                     else RegisterFailure(old(faults[IndexHumidity])))
        && faults[IndexPh] == (if i.ph.Some? then RegisterRecovery(old(faults[IndexPh])) else RegisterFailure(old(faults[IndexPh])))
        && faults[IndexEc] == (if i.ec.Some? then RegisterRecovery(old(faults[IndexEc])) else RegisterFailure(old(faults[IndexEc])))
        && faults[IndexLux] == (if i.lux.Some? then RegisterRecovery(old(faults[IndexLux])) else RegisterFailure(old(faults[IndexLux])))
        && faults[IndexCo2] == (if i.co2.Some? then RegisterRecovery(old(faults[IndexCo2])) else RegisterFailure(old(faults[IndexCo2])))
        && streaks[IndexTemperature] == old(streaks[IndexTemperature])
        && streaks[IndexHumidity] == old(streaks[IndexHumidity])
        && streaks[IndexPh] == (if i.ph.Some? then UpdateSuccess(old(streaks[IndexPh])) else old(streaks[IndexPh]))
        && streaks[IndexEc] == (if i.ec.Some? then UpdateSuccess(old(streaks[IndexEc])) else old(streaks[IndexEc]))
        && streaks[IndexLux] == (if i.lux.Some? then UpdateSuccess(old(streaks[IndexLux])) else old(streaks[IndexLux]))
        && streaks[IndexCo2] == (if i.co2.Some? then UpdateSuccess(old(streaks[IndexCo2])) else old(streaks[IndexCo2]))
      ensures forall k :: 0 <= k < SensorCount ==> (streaks[k].faultActive ==> old(streaks[k].faultActive))
      ensures sensorDataValid == old(sensorDataValid) && lastData == old(lastData) && totalCycles == old(totalCycles)
      ensures successfulCycles == old(successfulCycles) && minCycleMs == old(minCycleMs) && maxCycleMs == old(maxCycleMs)
    {
      data := ReadingsOf(i, nowUs);
      if !interfacePresent {
        return ErrInvalidState, data;
      }
      Account(IndexTemperature, i.tempHum.Some?, false);
      Account(IndexHumidity, i.tempHum.Some?, false);
      Account(IndexPh, i.ph.Some?, true);
      Account(IndexEc, i.ec.Some?, true);
      Account(IndexLux, i.lux.Some?, true);
      Account(IndexCo2, i.co2.Some?, true);
      err := if AnyRead(i) then Ok else Fail;
    }

    /** The bookkeeping at the end of a sensor_task cycle. */
    method FinishCycle(ret: Err, data: Readings, cycleMs: nat)
      requires Valid() && ReadingsOk(data) && cycleMs <= U32Max
      modifies this
      ensures Valid()
      ensures ret == Ok ==> sensorDataValid && lastData == data && successfulCycles == old(successfulCycles) + 1
                            && failedCycles == old(failedCycles)
      ensures ret != Ok ==> !sensorDataValid && lastData == old(lastData) && failedCycles == old(failedCycles) + 1
                            && successfulCycles == old(successfulCycles)
      ensures totalCycles == old(totalCycles) + 1
      ensures maxCycleMs == if cycleMs > old(maxCycleMs) then cycleMs else old(maxCycleMs)
      ensures minCycleMs == if cycleMs < old(minCycleMs) then cycleMs else old(minCycleMs)
      ensures configValid == old(configValid) && configTargets == old(configTargets) && notices == old(notices)
    {
      if ret == Ok {
        lastData := data;
        sensorDataValid := true;
        successfulCycles := successfulCycles + 1;
      } else {
        sensorDataValid := false;
        failedCycles := failedCycles + 1;
      }
      totalCycles := totalCycles + 1;
      if cycleMs > maxCycleMs {
        maxCycleMs := cycleMs;
      }
      if cycleMs < minCycleMs {
        minCycleMs := cycleMs;
      }
    }

    /** The minimum cycle time system_tasks_get_stats prints: 0 while none was recorded. */
    function ReportedMinCycle(): (m: nat)
      requires Valid()
      reads this
      ensures totalCycles == 0 ==> m == 0
      ensures minCycleMs < U32Max ==> m == minCycleMs
    {
      if minCycleMs == U32Max then 0 else minCycleMs
    }
  }
}
