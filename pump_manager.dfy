/**
 * The dosing safety layer of components/pump_manager: per-pump statistics,
 * the volume, hourly-count, minimum-interval and error-status limits, and
 * the run-time computation of a dose.  Time is seconds since boot as the
 * source's uint32 counter, passed in; the physical pump, the cooldown delay
 * and the GPIO lines are observed through a list of outputs.
 */
module PumpManager {

  import opened Wrappers
  import opened Esp

  const PumpCount := 6
  const U32 := 0x1_0000_0000

  /** PUMP_MIN_DOSE_ML and PUMP_MAX_DOSE_ML. */
  const MinDoseMl: real := 0.1
  const MaxDoseMl: real := 100.0
  const MinIntervalS := 10
  const MaxDosesPerHour := 20
  const HourS := 3600

  datatype Status = Idle | Running | Cooldown | StatusError

  /** pump_stats_t as the manager uses it. */
  datatype Stats = Stats(
    totalDoses: nat, totalMl: real, lastDoseTs: nat, dosesInLastHour: nat,
    totalRuntimeS: nat, status: Status)

  /** pump_config_t. */
  datatype PumpConfig = PumpConfig(
    enabled: bool, flowMlPerS: real, minDurationMs: nat, maxDurationMs: nat, cooldownMs: nat,
    concentrationFactor: real, name: string)

  /** What reaches the pump driver, the scheduler and the GPIO lines. */
  datatype Output = Run(pump: nat, durationMs: nat) | Delay(ms: nat) | Stop(pump: nat)

  predicate VolumeOk(volumeMl: real)
  {
    MinDoseMl <= volumeMl <= MaxDoseMl
  }

  /** current_time - last_dose_timestamp in uint32 arithmetic. */
  function SinceLast(now: nat, last: nat): (r: nat)
    ensures r < U32
    ensures last <= now < U32 ==> r == now - last
  {
    (now - last) % U32
  }

  /** The hourly reset test as written: last < current_time - 3600, in uint32 arithmetic. */
  predicate ResetDueAsWritten(now: nat, last: nat)
  {
    last < (now - HourS) % U32
  }

  /** The hourly reset test as intended: the last dose is more than an hour old. */
  predicate ResetDue(now: nat, last: nat)
  {
    SinceLast(now, last) > HourS
  }

  /** In the first hour after boot the wrapped subtraction resets the counter at every check. */
  lemma FirstHourAlwaysResets(now: nat, last: nat)
    requires last <= now < HourS
    ensures ResetDueAsWritten(now, last)
    ensures !ResetDue(now, last)
  {
    assert (now - HourS) % U32 == now - HourS + U32;
  }

  /** After the first hour both tests agree. */
  lemma AsWrittenAgreesAfterFirstHour(now: nat, last: nat)
    requires HourS <= now < U32 && last <= now
    ensures ResetDueAsWritten(now, last) <==> ResetDue(now, last)
  {
    assert (now - HourS) % U32 == now - HourS;
  }

  /** update_hourly_counter, with the intended reset test. */
  function HourlyReset(s: Stats, now: nat): (r: Stats)
    ensures r.dosesInLastHour == (if ResetDue(now, s.lastDoseTs) then 0 else s.dosesInLastHour)
    ensures r.(dosesInLastHour := s.dosesInLastHour) == s
  {
    if ResetDue(now, s.lastDoseTs) then s.(dosesInLastHour := 0) else s
  }

  /** The checks of check_safety_limits after the volume check and the hourly update. */
  predicate LimitsOk(s: Stats, now: nat)
  {
    s.dosesInLastHour < MaxDosesPerHour
    && !(SinceLast(now, s.lastDoseTs) < MinIntervalS && s.totalDoses > 0)
    && s.status != StatusError
  }

  /** Twenty doses within the hour block a further dose. */
  lemma HourlyLimitBlocks(s: Stats, now: nat)
    requires s.dosesInLastHour >= MaxDosesPerHour && !ResetDue(now, s.lastDoseTs)
    ensures !LimitsOk(HourlyReset(s, now), now)
  {
  }

  /** A pump that has dosed before is blocked for ten seconds. */
  lemma MinIntervalBlocks(s: Stats, now: nat)
    requires s.totalDoses > 0 && s.lastDoseTs <= now < s.lastDoseTs + MinIntervalS && now < U32
    ensures !LimitsOk(HourlyReset(s, now), now)
  {
  }

  /** A pump in error is always blocked. */
  lemma ErrorStatusBlocks(s: Stats, now: nat)
    requires s.status == StatusError
    ensures !LimitsOk(HourlyReset(s, now), now)
  {
  }

  /** A run time raised to the minimum and then lowered to the maximum. */
  function ClampMs(raw: nat, minMs: nat, maxMs: nat): (r: nat)
    ensures r <= maxMs
    ensures minMs <= maxMs ==> minMs <= r
    ensures minMs <= raw <= maxMs ==> r == raw
    ensures raw < minMs <= maxMs ==> r == minMs
    ensures maxMs < raw ==> r == maxMs
  {
    var d := if raw < minMs then minMs else raw;
    if d > maxMs then maxMs else d
  }

  /** The run time of a dose: volume/flow seconds as milliseconds, truncated, then clamped. */
  function DurationMs(volumeMl: real, flowMlPerS: real, minMs: nat, maxMs: nat): (r: nat)
    requires volumeMl >= 0.0 && flowMlPerS > 0.0
    ensures r <= maxMs
    ensures minMs <= maxMs ==> minMs <= r
    ensures minMs <= (volumeMl / flowMlPerS * 1000.0).Floor <= maxMs ==> r == (volumeMl / flowMlPerS * 1000.0).Floor
  {
    var raw := (volumeMl / flowMlPerS * 1000.0).Floor;
    assert raw >= 0 by {
      assert volumeMl / flowMlPerS >= 0.0;
    }
    ClampMs(raw, minMs, maxMs)
  }

  /** The statistics after a successful dose. */
  function Dosed(s: Stats, volumeMl: real, durationMs: nat, now: nat): (r: Stats)
    ensures r.totalDoses == s.totalDoses + 1 && r.dosesInLastHour == s.dosesInLastHour + 1
    ensures r.totalMl == s.totalMl + volumeMl && r.lastDoseTs == now
    ensures r.totalRuntimeS == s.totalRuntimeS + durationMs / 1000 && r.status == Idle
  {
    Stats(s.totalDoses + 1, s.totalMl + volumeMl, now, s.dosesInLastHour + 1,
          s.totalRuntimeS + durationMs / 1000, Idle)
  }

  /** A dose is followed by at least ten seconds in which the same pump is refused. */
  lemma DoseStartsInterval(s: Stats, volumeMl: real, durationMs: nat, now: nat, later: nat)
    requires now <= later < now + MinIntervalS && later < U32
    ensures !LimitsOk(HourlyReset(Dosed(s, volumeMl, durationMs, now), later), later)
  {
  }

  /** pump_manager_reset_stats on one record: everything zero except the status. */
  function ResetStats(s: Stats): (r: Stats)
    ensures r.status == s.status
    ensures r.(status := Idle) == Stats(0, 0.0, 0, 0, 0, Idle)
  {
    Stats(0, 0.0, 0, 0, 0, s.status)
  }

  /** After a reset only the status can block a dose. */
  lemma ResetLeavesOnlyStatus(s: Stats, now: nat)
    ensures LimitsOk(HourlyReset(ResetStats(s), now), now) <==> s.status != StatusError
  {
  }

  class Pumps {
    const stats: array<Stats>
    var initialized: bool
    var outputs: seq<Output>

    predicate Valid()
      reads this
    {
      stats.Length == PumpCount
    }

    constructor()
      ensures Valid() && !initialized && outputs == []
      ensures forall i :: 0 <= i < stats.Length ==> stats[i] == Stats(0, 0.0, 0, 0, 0, Idle)
    {
      stats := new Stats[PumpCount](_ => Stats(0, 0.0, 0, 0, 0, Idle));
      initialized := false;
      outputs := [];
    }

    /** pump_manager_init: idempotent; every pump starts IDLE. */
    method Init() returns (err: Err)
      requires Valid()
      modifies this, stats
      ensures Valid() && err == Ok && initialized && outputs == old(outputs)
      ensures old(initialized) ==> unchanged(stats)
      ensures !old(initialized) ==>
        forall i :: 0 <= i < PumpCount ==> stats[i] == old(stats[i]).(status := Idle)
    {
      if initialized {
        return Ok;
      }
      var a := stats;
      for i := 0 to PumpCount
        modifies a
        invariant forall j :: 0 <= j < i ==> a[j] == old(a[j]).(status := Idle)
        invariant forall j :: i <= j < PumpCount ==> a[j] == old(a[j])
      {
        a[i] := a[i].(status := Idle);
      }
      initialized := true;
      return Ok;
    }

    /** check_safety_limits: the hourly counter is updated whenever the volume is acceptable. */
    method CheckSafetyLimits(idx: nat, volumeMl: real, now: nat) returns (ok: bool)
      requires Valid()
      modifies stats
      ensures ok <==> idx < PumpCount && VolumeOk(volumeMl) && LimitsOk(HourlyReset(old(stats[idx]), now), now)
      ensures idx < PumpCount && VolumeOk(volumeMl) ==> stats[idx] == HourlyReset(old(stats[idx]), now)
      ensures forall j :: 0 <= j < PumpCount && (j != idx || !VolumeOk(volumeMl)) ==> stats[j] == old(stats[j])
    {
      if idx >= PumpCount {
        return false;
      }
      if !VolumeOk(volumeMl) {
        return false;
      }
      stats[idx] := HourlyReset(stats[idx], now);
      ok := LimitsOk(stats[idx], now);
    }

    /**
     * pump_manager_dose.  `config` is this pump's entry of the cached system
     * configuration, None when there is none.
     */
    method Dose(idx: nat, volumeMl: real, now: nat, config: Option<PumpConfig>) returns (err: Err)
      requires Valid()
      modifies this, stats
      ensures Valid()
      ensures !old(initialized) ==> err == ErrInvalidState && unchanged(this) && unchanged(stats)
      ensures old(initialized) && idx >= PumpCount ==> err == ErrInvalidArg && unchanged(this) && unchanged(stats)
      ensures old(initialized) && idx < PumpCount ==>
        var checked := if VolumeOk(volumeMl) then HourlyReset(old(stats[idx]), now) else old(stats[idx]);
        var safe := VolumeOk(volumeMl) && LimitsOk(checked, now);
        (!safe ==> err == Fail && stats[idx] == checked && outputs == old(outputs))
        && (safe && config.None? ==> err == ErrInvalidState && stats[idx] == checked && outputs == old(outputs))
        && (safe && config.Some? && !config.value.enabled ==>
              err == ErrInvalidState && stats[idx] == checked && outputs == old(outputs))
        && (safe && config.Some? && config.value.enabled && config.value.flowMlPerS <= 0.0 ==>
              err == ErrInvalidArg && stats[idx] == checked && outputs == old(outputs))
        && (safe && config.Some? && config.value.enabled && config.value.flowMlPerS > 0.0 ==>
              var c := config.value;
              var d := DurationMs(volumeMl, c.flowMlPerS, c.minDurationMs, c.maxDurationMs);
              err == Ok && stats[idx] == Dosed(checked, volumeMl, d, now)
              && outputs == old(outputs) + [Run(idx, d), Delay(c.cooldownMs)])
      ensures forall j :: 0 <= j < PumpCount && j != idx ==> stats[j] == old(stats[j])
      ensures initialized == old(initialized)
    {
      if !initialized {
        return ErrInvalidState;
      }
      if idx >= PumpCount {
        return ErrInvalidArg;
      }
      var safe := CheckSafetyLimits(idx, volumeMl, now);
      if !safe {
        return Fail;
      }
      if config.None? {
        return ErrInvalidState;
      }
      var c := config.value;
      if !c.enabled {
        return ErrInvalidState;
      }
      if c.flowMlPerS <= 0.0 {
        return ErrInvalidArg;
      }
      var raw := (volumeMl / c.flowMlPerS * 1000.0).Floor;
      assert raw >= 0 by {
        assert volumeMl / c.flowMlPerS >= 0.0;
      }
      var duration: nat := raw;
      if duration < c.minDurationMs {
        duration := c.minDurationMs;
      }
      if duration > c.maxDurationMs {
        duration := c.maxDurationMs;
      }
      stats[idx] := stats[idx].(status := Running);
      outputs := outputs + [Run(idx, duration)];
      var s := stats[idx];
      stats[idx] := s.(totalDoses := s.totalDoses + 1, totalMl := s.totalMl + volumeMl, lastDoseTs := now,
                       dosesInLastHour := s.dosesInLastHour + 1,
                       totalRuntimeS := s.totalRuntimeS + duration / 1000, status := Cooldown);
      outputs := outputs + [Delay(c.cooldownMs)];
      stats[idx] := stats[idx].(status := Idle);
      return Ok;
    }

    /** pump_manager_get_status: an out-of-range index reads as ERROR. */
    method GetStatus(idx: nat) returns (s: Status)
      requires Valid()
      ensures idx >= PumpCount ==> s == StatusError
      ensures idx < PumpCount ==> s == stats[idx].status
    {
      if idx >= PumpCount {
        return StatusError;
      }
      return stats[idx].status;
    }

    /** pump_manager_get_stats; a NULL destination is not modelled. */
    method GetStats(idx: nat) returns (err: Err, s: Option<Stats>)
      requires Valid()
      ensures idx >= PumpCount ==> err == ErrInvalidArg && s.None?
      ensures idx < PumpCount ==> err == Ok && s == Some(stats[idx])
    {
      if idx >= PumpCount {
        return ErrInvalidArg, None;
      }
      return Ok, Some(stats[idx]);
    }

    /** pump_manager_reset_stats. */
    method Reset(idx: nat) returns (err: Err)
      requires Valid()
      modifies stats
      ensures idx >= PumpCount ==> err == ErrInvalidArg && unchanged(stats)
      ensures idx < PumpCount ==> err == Ok && stats[idx] == ResetStats(old(stats[idx]))
      ensures forall j :: 0 <= j < PumpCount && j != idx ==> stats[j] == old(stats[j])
    {
      if idx >= PumpCount {
        return ErrInvalidArg;
      }
      var saved := stats[idx].status;
      stats[idx] := Stats(0, 0.0, 0, 0, 0, Idle);
      stats[idx] := stats[idx].(status := saved);
      return Ok;
    }

    /** pump_manager_emergency_stop: both lines of every pump low, every pump IDLE. */
    method EmergencyStop() returns (err: Err)
      requires Valid()
      modifies this, stats
      ensures Valid() && err == Ok && initialized == old(initialized)
      ensures outputs == old(outputs) + [Stop(0), Stop(1), Stop(2), Stop(3), Stop(4), Stop(5)]
      ensures forall i :: 0 <= i < PumpCount ==> stats[i] == old(stats[i]).(status := Idle)
    {
      var a := stats;
      var out := outputs;
      for i := 0 to PumpCount
        modifies a
        invariant out == old(outputs) + seq(i, (k: nat) => Stop(k))
        invariant forall j :: 0 <= j < i ==> a[j] == old(a[j]).(status := Idle)
        invariant forall j :: i <= j < PumpCount ==> a[j] == old(a[j])
      {
        out := out + [Stop(i)];
        a[i] := a[i].(status := Idle);
      }
      assert seq(PumpCount, (k: nat) => Stop(k)) == [Stop(0), Stop(1), Stop(2), Stop(3), Stop(4), Stop(5)];
      outputs := out;
      return Ok;
    }

    /** pump_manager_can_dose: the safety check, including its hourly update. */
    method CanDose(idx: nat, volumeMl: real, now: nat) returns (ok: bool)
      requires Valid()
      modifies stats
      ensures !initialized || idx >= PumpCount ==> !ok && unchanged(stats)
      ensures initialized && idx < PumpCount ==>
        (ok <==> VolumeOk(volumeMl) && LimitsOk(HourlyReset(old(stats[idx]), now), now))
      ensures forall j :: 0 <= j < PumpCount && j != idx ==> stats[j] == old(stats[j])
    {
      if !initialized || idx >= PumpCount {
        return false;
      }
      ok := CheckSafetyLimits(idx, volumeMl, now);
    }

    /** pump_manager_test: runs the pump with no safety checks and no statistics. */
    method Test(idx: nat, durationMs: nat) returns (err: Err)
      requires Valid()
      modifies this
      ensures !old(initialized) || idx >= PumpCount ==> err == ErrInvalidArg && outputs == old(outputs)
      ensures old(initialized) && idx < PumpCount ==> err == Ok && outputs == old(outputs) + [Run(idx, durationMs)]
      ensures initialized == old(initialized)
    {
      if !initialized || idx >= PumpCount {
        return ErrInvalidArg;
      }
      outputs := outputs + [Run(idx, durationMs)];
      return Ok;
    }
  }
}
