/**
 * The per-pump PID layer of components/pump_pid_manager: six PID
 * instances with enable and auto-mode flags, the dt computed from the
 * seconds clock, and dosing through the pump manager when the output is
 * large enough.  The clock and the stored configuration are parameters.
 */
module PumpPidManager {

  import opened Wrappers
  import opened Esp
  import PumpManager
  import opened PidController

  const PumpPidCount := 6
  const U32 := 0x1_0000_0000

  /** The smallest PID output that is dosed, in ml. */
  const MinDoseMl: real := 0.5

  /** The stored per-pump PID settings (system_config_t.pump_pid[i]). */
  datatype PidSettings = PidSettings(
    kp: real, ki: real, kd: real, outputMin: real, outputMax: real, enabled: bool, autoMode: bool)

  /** The pid_config_t the manager builds from stored settings. */
  function ConfigOf(s: PidSettings): (c: PidConfig)
    ensures c.setpoint == 0.0 && c.integralMin == -100.0 && c.integralMax == 100.0
    ensures c.kp == s.kp && c.ki == s.ki && c.kd == s.kd
    ensures c.outputMin == s.outputMin && c.outputMax == s.outputMax
  {
    PidConfig(s.kp, s.ki, s.kd, 0.0, s.outputMin, s.outputMax, -100.0, 100.0)
  }

  /** The dt of pump_pid_compute: 1 s on the first compute, else whole seconds since the last. */
  function Dt(lastComputeS: nat, nowS: nat): (dt: real)
    requires lastComputeS < U32 && nowS < U32
    ensures lastComputeS == 0 ==> dt == 1.0
    ensures 0 < lastComputeS <= nowS ==> dt == (nowS - lastComputeS) as real
  {
    if lastComputeS > 0 then ((nowS - lastComputeS) % U32) as real else 1.0
  }

  /** What one accepted dose of `doseMl` appends to the pump outputs: the run, then the cooldown. */
  function DoseOutputs(idx: nat, doseMl: real, c: PumpManager.PumpConfig): (r: seq<PumpManager.Output>)
    requires doseMl >= 0.0 && c.flowMlPerS > 0.0
    ensures |r| == 2 && r[0].Run? && r[0].pump == idx && r[1] == PumpManager.Delay(c.cooldownMs)
  {
    [PumpManager.Run(idx, PumpManager.DurationMs(doseMl, c.flowMlPerS, c.minDurationMs, c.maxDurationMs)),
     PumpManager.Delay(c.cooldownMs)]
  }

  /** A second compute within the same second of the clock has dt = 0, which pid_compute refuses. */
  lemma SameSecondGivesZeroDt(t: nat)
    requires 0 < t < U32
    ensures Dt(t, t) == 0.0
  {
  }

  /** pump_pid_instance_t. */
  class Instance {
    const pid: Pid
    var lastComputeS: nat
    var enabled: bool
    var autoMode: bool
    var lastMeasured: real
    var pumpStats: PumpManager.Stats

    constructor()
      ensures fresh(pid) && fresh(pid.history) && pid.Valid() && !pid.initialized
      ensures lastComputeS == 0 && !enabled && !autoMode
    {
      pid := new Pid();
      lastComputeS := 0;
      enabled, autoMode := false, false;
      lastMeasured := 0.0;
      pumpStats := PumpManager.Stats(0, 0.0, 0, 0, 0, PumpManager.Idle);
    }
  }

  class Manager {
    var initialized: bool
    const slots: seq<Instance>
    const pumps: PumpManager.Pumps

    predicate Valid()
      reads this, slots, set i | 0 <= i < |slots| :: slots[i].pid, pumps
    {
      |slots| == PumpPidCount && pumps.Valid()
      && (forall i :: 0 <= i < |slots| ==> slots[i].pid.Valid() && slots[i].lastComputeS < U32)
      && (forall i, j :: 0 <= i < j < |slots| ==>
            slots[i] != slots[j] && slots[i].pid != slots[j].pid && slots[i].pid.history != slots[j].pid.history)
    }

    /** What one slot's compute may change. */
    function Footprint(idx: nat): set<object>
      reads this
    {
      if idx < |slots| then {slots[idx], slots[idx].pid, slots[idx].pid.history} else {}
    }

    constructor(s: seq<Instance>, p: PumpManager.Pumps)
      requires |s| == PumpPidCount && p.Valid()
      requires forall i :: 0 <= i < |s| ==> s[i].pid.Valid() && s[i].lastComputeS == 0
      requires forall i, j :: 0 <= i < j < |s| ==> s[i] != s[j] && s[i].pid != s[j].pid && s[i].pid.history != s[j].pid.history
      ensures Valid() && !initialized && slots == s && pumps == p
    {
      initialized := false;
      slots := s;
      pumps := p;
    }

    /** Slot i holds a freshly initialised PID built from s, with s's flags. */
    predicate Configured(i: nat, s: PidSettings)
      requires i < |slots| && slots[i].pid.Valid()
      reads slots[i], slots[i].pid, slots[i].pid.history
    {
      && slots[i].pid.initialized && slots[i].pid.config == ConfigOf(s)
      && slots[i].pid.Recent() == [] && slots[i].pid.sampleCount == 0
      && slots[i].enabled == s.enabled && slots[i].autoMode == s.autoMode
    }

    /** The body of the init loop for one slot. */
    method ConfigureSlot(i: nat, s: PidSettings)
      requires Valid() && i < PumpPidCount
      modifies slots[i], slots[i].pid, slots[i].pid.history
      ensures Valid() && Configured(i, s)
    {
      var inst := slots[i];
      var _ := inst.pid.Init(Some(ConfigOf(s)));
      inst.enabled := s.enabled;
      inst.autoMode := s.autoMode;
    }

    /**
     * pump_pid_manager_init.  `stored` is what config_load produced, None when
     * it failed.
     */
    method Init(stored: Option<seq<PidSettings>>) returns (err: Err)
      requires Valid()
      requires stored.Some? ==> |stored.value| == PumpPidCount
      modifies this, slots, set i | 0 <= i < |slots| :: slots[i].pid, set i | 0 <= i < |slots| :: slots[i].pid.history
      ensures Valid()
      ensures old(initialized) ==> err == Ok && initialized
      ensures !old(initialized) && stored.None? ==> err == Fail && !initialized
      ensures !old(initialized) && stored.Some? ==>
        err == Ok && initialized
        && forall i :: 0 <= i < PumpPidCount ==>
             slots[i].pid.initialized && slots[i].pid.config == ConfigOf(stored.value[i])
             && slots[i].pid.Recent() == [] && slots[i].pid.sampleCount == 0
             && slots[i].enabled == stored.value[i].enabled && slots[i].autoMode == stored.value[i].autoMode
    {
      if initialized {
        return Ok;
      }
      if stored.None? {
        return Fail;
      }
      for i := 0 to PumpPidCount
        invariant Valid()
        invariant forall j :: 0 <= j < i ==> Configured(j, stored.value[j])
      {
        ConfigureSlot(i, stored.value[i]);
      }
      forall j | 0 <= j < PumpPidCount
        ensures slots[j].pid.initialized && slots[j].pid.config == ConfigOf(stored.value[j])
        ensures slots[j].pid.Recent() == [] && slots[j].pid.sampleCount == 0
        ensures slots[j].enabled == stored.value[j].enabled && slots[j].autoMode == stored.value[j].autoMode
      {
        assert Configured(j, stored.value[j]);
      }
      initialized := true;
      return Ok;
    }

    /**
     * pump_pid_compute.  The setpoint is set to the target before the
     * computation; the time stamp and the last measurement change only when
     * the computation succeeds.
     */
    method Compute(idx: nat, measured: real, target: real, nowS: nat) returns (err: Err, out: PidOutput)
      requires Valid() && nowS < U32
      modifies Footprint(idx)
      ensures Valid()
      ensures !initialized || idx >= PumpPidCount ==> err == ErrInvalidArg
      ensures initialized && idx < PumpPidCount && !(old(slots[idx].enabled) && old(slots[idx].autoMode)) ==>
        err == ErrInvalidState && unchanged(slots[idx]) && unchanged(slots[idx].pid)
      ensures initialized && idx < PumpPidCount && old(slots[idx].enabled) && old(slots[idx].autoMode) ==>
        var inst := slots[idx];
        var dt := Dt(old(inst.lastComputeS), nowS);
        (old(inst.pid.initialized) ==> inst.pid.config.setpoint == target)
        && (old(inst.pid.initialized) && dt > 0.0 ==>
              err == Ok && out == PidStep(old(inst.pid.config).(setpoint := target), old(inst.pid.integral),
                                          old(inst.pid.prevError), old(inst.pid.sampleCount) == 0, measured, dt)
              && inst.pid.lastOutput == out && inst.lastComputeS == nowS && inst.lastMeasured == measured)
        && (!old(inst.pid.initialized) || dt <= 0.0 ==>
              err != Ok && inst.lastComputeS == old(inst.lastComputeS) && inst.lastMeasured == old(inst.lastMeasured))
    {
      if !initialized || idx >= PumpPidCount {
        return ErrInvalidArg, NoOutput;
      }
      var inst := slots[idx];
      if !inst.enabled || !inst.autoMode {
        return ErrInvalidState, NoOutput;
      }
      var _ := inst.pid.SetSetpoint(target);
      var dt := 1.0;
      if inst.lastComputeS > 0 {
        dt := ((nowS - inst.lastComputeS) % U32) as real;
      }
      err, out := inst.pid.Compute(measured, dt);
      if err == Ok {
        inst.lastComputeS := nowS;
        inst.lastMeasured := measured;
      }
    }

    /** pump_pid_execute: dose through the pump manager and copy its statistics on success. */
    method Execute(idx: nat, doseMl: real, nowS: nat, config: Option<PumpManager.PumpConfig>) returns (err: Err)
      requires Valid()
      modifies pumps, pumps.stats, if idx < |slots| then {slots[idx]} else {}
      ensures Valid()
      ensures idx >= PumpPidCount ==> err == ErrInvalidArg && unchanged(pumps) && unchanged(pumps.stats)
      ensures idx < PumpPidCount && err == Ok ==> slots[idx].pumpStats == pumps.stats[idx]
      ensures idx < PumpPidCount && err == Ok ==>
        config.Some? && doseMl >= 0.0 && config.value.flowMlPerS > 0.0
        && pumps.outputs == old(pumps.outputs) + DoseOutputs(idx, doseMl, config.value)
      ensures idx < PumpPidCount ==>
        slots[idx].lastComputeS == old(slots[idx].lastComputeS) && slots[idx].enabled == old(slots[idx].enabled)
        && slots[idx].autoMode == old(slots[idx].autoMode)
    {
      if idx >= PumpPidCount {
        return ErrInvalidArg;
      }
      err := pumps.Dose(idx, doseMl, nowS, config);
      if err == Ok {
        slots[idx].pumpStats := pumps.stats[idx];
      }
    }

    /**
     * pump_pid_compute_and_execute: a dose of exactly the computed output
     * follows a successful compute whose output is above 0.5 ml; the answer
     * is the compute's error, else the dose's, else Ok.  `doseMl` is the
     * amount handed to the pump.
     */
    method ComputeAndExecute(idx: nat, measured: real, target: real, nowS: nat,
                             config: Option<PumpManager.PumpConfig>) returns (err: Err, dosed: bool, doseMl: real)
      requires Valid() && nowS < U32
      modifies Footprint(idx), pumps, pumps.stats
      ensures Valid()
      ensures dosed ==> idx < PumpPidCount && doseMl == slots[idx].pid.lastOutput.output && doseMl > MinDoseMl
      ensures !dosed ==> doseMl == 0.0 && unchanged(pumps) && unchanged(pumps.stats)
      ensures !initialized || idx >= PumpPidCount ==> err == ErrInvalidArg && !dosed
      ensures initialized && idx < PumpPidCount && !(old(slots[idx].enabled) && old(slots[idx].autoMode)) ==>
        err == ErrInvalidState && !dosed
      ensures initialized && idx < PumpPidCount && old(slots[idx].enabled) && old(slots[idx].autoMode) ==>
        var computed := old(slots[idx].pid.initialized) && Dt(old(slots[idx].lastComputeS), nowS) > 0.0;
        (!computed ==> err != Ok && !dosed)
        && (computed ==> (dosed <==> slots[idx].pid.lastOutput.output > MinDoseMl) && (!dosed ==> err == Ok))
      ensures dosed && err == Ok ==>
        config.Some? && doseMl >= 0.0 && config.value.flowMlPerS > 0.0
        && pumps.outputs == old(pumps.outputs) + DoseOutputs(idx, doseMl, config.value)
        && slots[idx].pumpStats == pumps.stats[idx]
    {
      var out;
      err, out := Compute(idx, measured, target, nowS);
      if err != Ok {
        return err, false, 0.0;
      }
      if out.output > MinDoseMl {
        err := Execute(idx, out.output, nowS, config);
        return err, true, out.output;
      }
      return Ok, false, 0.0;
    }

    /** pump_pid_get_output: the zero output for a bad index or an uninitialised manager. */
    function GetOutput(idx: nat): (o: PidOutput)
      reads this, if idx < |slots| then {slots[idx].pid} else {}
    {
      if idx >= |slots| || idx >= PumpPidCount || !initialized then NoOutput else slots[idx].pid.lastOutput
    }

    /** pump_pid_reset. */
    method ResetPid(idx: nat) returns (err: Err)
      requires Valid()
      modifies Footprint(idx)
      ensures Valid()
      ensures !initialized || idx >= PumpPidCount ==> err == ErrInvalidArg
      ensures initialized && idx < PumpPidCount && !old(slots[idx].pid.initialized) ==> err == ErrInvalidState
      ensures initialized && idx < PumpPidCount && old(slots[idx].pid.initialized) ==>
        err == Ok && slots[idx].pid.integral == 0.0 && slots[idx].pid.sampleCount == 0 && slots[idx].pid.Recent() == []
    {
      if idx >= PumpPidCount || !initialized {
        return ErrInvalidArg;
      }
      err := slots[idx].pid.Reset();
    }

    /** pump_pid_set_mode. */
    method SetMode(idx: nat, autoMode: bool) returns (err: Err)
      requires Valid()
      modifies Footprint(idx)
      ensures Valid()
      ensures !initialized || idx >= PumpPidCount ==> err == ErrInvalidArg
      ensures initialized && idx < PumpPidCount ==>
        err == Ok && slots[idx].autoMode == autoMode && slots[idx].enabled == old(slots[idx].enabled)
        && slots[idx].lastComputeS == old(slots[idx].lastComputeS) && slots[idx].lastMeasured == old(slots[idx].lastMeasured)
        && slots[idx].pumpStats == old(slots[idx].pumpStats) && unchanged(slots[idx].pid)
    {
      if idx >= PumpPidCount || !initialized {
        return ErrInvalidArg;
      }
      slots[idx].autoMode := autoMode;
      return Ok;
    }

    /** pump_pid_set_tunings. */
    method SetTunings(idx: nat, kp: real, ki: real, kd: real) returns (err: Err)
      requires Valid()
      modifies Footprint(idx)
      ensures Valid()
      ensures !initialized || idx >= PumpPidCount ==> err == ErrInvalidArg
      ensures initialized && idx < PumpPidCount && old(slots[idx].pid.initialized) ==>
        err == Ok && slots[idx].pid.config == old(slots[idx].pid.config).(kp := kp, ki := ki, kd := kd)
    {
      if idx >= PumpPidCount || !initialized {
        return ErrInvalidArg;
      }
      err := slots[idx].pid.SetTunings(kp, ki, kd);
    }

    /** pump_pid_get_instance: None for a bad index or an uninitialised manager. */
    function GetInstance(idx: nat): (r: Option<Instance>)
      reads this
      ensures r.Some? <==> initialized && idx < PumpPidCount && idx < |slots|
      ensures r.Some? ==> r.value == slots[idx]
    {
      if idx >= PumpPidCount || idx >= |slots| || !initialized then None else Some(slots[idx])
    }
  }
}
