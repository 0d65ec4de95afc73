/**
 * The threshold pH/EC corrector of components/ph_ec_controller: default
 * parameters, the dead band, the choice of pump and the run times it asks
 * of the pump driver.  Pumps are indexed pH UP, pH DOWN, EC A, EC B, EC C,
 * Water.
 */
module PhEcController {

  import opened Wrappers
  import opened Esp
  import opened PumpManager

  const PhUp := 0
  const PhDown := 1
  const EcA := 2
  const EcB := 3
  const EcC := 4
  const Water := 5

  /** The pause between two nutrient pumps. */
  const NutrientPauseMs := 500

  datatype PhParams = PhParams(targetPh: real, deadband: real, maxStep: real, intervalMs: nat)

  datatype EcParams = EcParams(
    targetEc: real, deadband: real, maxStep: real, intervalMs: nat,
    ratioA: real, ratioB: real, ratioC: real)

  const DefaultPhParams := PhParams(6.5, 0.2, 0.5, 300000)
  const DefaultEcParams := EcParams(1.5, 0.1, 0.2, 300000, 0.4, 0.4, 0.2)

  function Abs(x: real): real { if x < 0.0 then -x else x }

  function Min(a: real, b: real): real { if a < b then a else b }

  /**
   * (uint32_t)(amount / flow): truncation of a positive quotient.  A
   * non-positive quotient or flow (undefined in C) is taken as 0.
   */
  function TruncMs(amount: real, flow: real): (r: nat)
    ensures flow > 0.0 && amount >= 0.0 ==> r == (amount / flow).Floor
    ensures flow > 0.0 && amount >= 0.0 ==> r as real <= amount / flow < r as real + 1.0
  {
    if flow > 0.0 && amount >= 0.0 then
      assert amount / flow >= 0.0;
      (amount / flow).Floor
    else 0
  }

  /** The default pump_config_t of every pump. */
  function DefaultPumpConfig(name: string): PumpConfig
  {
    PumpConfig(true, 10.0, 100, 5000, 60000, 1.0, name)
  }

  /** ph_ec_controller_get_pump_name. */
  function PumpName(idx: nat): (r: string)
    ensures idx >= PumpCount ==> r == "Unknown"
  {
    if idx >= PumpCount then "Unknown"
    else ["pH UP", "pH DOWN", "EC A", "EC B", "EC C", "Water"][idx]
  }

  /** Every pump has its own name and none is called "Unknown". */
  lemma PumpNamesDistinct(i: nat, j: nat)
    requires i < PumpCount && j < PumpCount && i != j
    ensures PumpName(i) != PumpName(j) && PumpName(i) != "Unknown"
  {
  }

  /** What one pH correction asks of the pumps, for a given pump configuration table. */
  function PhPlan(currentPh: real, p: PhParams, cfg: seq<PumpConfig>): (r: seq<Output>)
    requires |cfg| == PumpCount
  {
    var e := currentPh - p.targetPh;
    if Abs(e) < p.deadband then []
    else
      var pump := if e > 0.0 then PhDown else PhUp;
      var c := cfg[pump];
      [Run(pump, ClampMs(TruncMs(Min(Abs(e), p.maxStep) * 1000.0, c.flowMlPerS), c.minDurationMs, c.maxDurationMs))]
  }

  /** Inside the dead band no pump runs. */
  lemma PhDeadbandRunsNothing(currentPh: real, p: PhParams, cfg: seq<PumpConfig>)
    requires |cfg| == PumpCount && Abs(currentPh - p.targetPh) < p.deadband
    ensures PhPlan(currentPh, p, cfg) == []
  {
  }

  /**
   * Outside the dead band exactly one pump runs: pH DOWN above the target and
   * pH UP otherwise, for a clamped time that follows min(|e|, max step).
   */
  lemma PhCorrectionChoosesPump(currentPh: real, p: PhParams, cfg: seq<PumpConfig>)
    requires |cfg| == PumpCount && Abs(currentPh - p.targetPh) >= p.deadband
    ensures var r := PhPlan(currentPh, p, cfg);
      var pump := if currentPh > p.targetPh then PhDown else PhUp;
      |r| == 1 && r[0].Run? && r[0].pump == pump
      && r[0].durationMs <= cfg[pump].maxDurationMs
      && (cfg[pump].minDurationMs <= cfg[pump].maxDurationMs ==> cfg[pump].minDurationMs <= r[0].durationMs)
  {
  }

  /** A dose pump runs at least as long for a larger pH error, up to the step limit. */
  lemma PhDurationMonotone(ph1: real, ph2: real, p: PhParams, cfg: seq<PumpConfig>)
    requires |cfg| == PumpCount && p.targetPh + p.deadband <= ph1 <= ph2 && p.deadband > 0.0
    ensures PhPlan(ph1, p, cfg)[0].durationMs <= PhPlan(ph2, p, cfg)[0].durationMs
  {
    var c := cfg[PhDown];
    var a1 := Min(Abs(ph1 - p.targetPh), p.maxStep) * 1000.0;
    var a2 := Min(Abs(ph2 - p.targetPh), p.maxStep) * 1000.0;
    assert a1 <= a2;
    TruncMonotone(a1, a2, c.flowMlPerS);
    ClampMonotone(TruncMs(a1, c.flowMlPerS), TruncMs(a2, c.flowMlPerS), c.minDurationMs, c.maxDurationMs);
  }

  lemma TruncMonotone(a1: real, a2: real, flow: real)
    requires a1 <= a2
    ensures TruncMs(a1, flow) <= TruncMs(a2, flow) || a1 < 0.0
  {
    if flow > 0.0 && a1 >= 0.0 {
      assert a1 / flow <= a2 / flow by {
        assert a2 / flow - a1 / flow == (a2 - a1) / flow;
      }
    }
  }

  lemma ClampMonotone(x: nat, y: nat, minMs: nat, maxMs: nat)
    requires x <= y
    ensures ClampMs(x, minMs, maxMs) <= ClampMs(y, minMs, maxMs)
  {
  }

  /** The share of the corrected step one nutrient pump delivers, in milliseconds; not clamped. */
  function ShareMs(c: real, ratio: real, cfg: PumpConfig): nat
  {
    TruncMs(c * ratio * 1000.0, cfg.flowMlPerS)
  }

  /** The nutrient pumps in A, B, C order, each only when its time is positive, with a pause after A and B. */
  function NutrientRuns(da: nat, db: nat, dc: nat): (r: seq<Output>)
  {
    (if da > 0 then [Run(EcA, da), Delay(NutrientPauseMs)] else [])
    + (if db > 0 then [Run(EcB, db), Delay(NutrientPauseMs)] else [])
    + (if dc > 0 then [Run(EcC, dc)] else [])
  }

  /** What one EC correction asks of the pumps. */
  function EcPlan(currentEc: real, e: EcParams, cfg: seq<PumpConfig>): (r: seq<Output>)
    requires |cfg| == PumpCount
  {
    var err := e.targetEc - currentEc;
    if Abs(err) < e.deadband then []
    else if err < 0.0 then
      var w := cfg[Water];
      [Run(Water, ClampMs(TruncMs(Abs(err) * 1000.0, w.flowMlPerS), w.minDurationMs, w.maxDurationMs))]
    else
      var c := Min(err, e.maxStep);
      NutrientRuns(ShareMs(c, e.ratioA, cfg[EcA]), ShareMs(c, e.ratioB, cfg[EcB]), ShareMs(c, e.ratioC, cfg[EcC]))
  }

  lemma EcDeadbandRunsNothing(currentEc: real, e: EcParams, cfg: seq<PumpConfig>)
    requires |cfg| == PumpCount && Abs(e.targetEc - currentEc) < e.deadband
    ensures EcPlan(currentEc, e, cfg) == []
  {
  }

  /** Above the target only the water pump runs, for a clamped time. */
  lemma EcAboveTargetOnlyWater(currentEc: real, e: EcParams, cfg: seq<PumpConfig>)
    requires |cfg| == PumpCount && currentEc > e.targetEc && Abs(e.targetEc - currentEc) >= e.deadband
    ensures var r := EcPlan(currentEc, e, cfg);
      |r| == 1 && r[0].Run? && r[0].pump == Water && r[0].durationMs <= cfg[Water].maxDurationMs
  {
  }

  /**
   * Below the target only the nutrient pumps run, each exactly when its
   * truncated share is positive, in A, B, C order.
   */
  lemma EcBelowTargetNutrients(currentEc: real, e: EcParams, cfg: seq<PumpConfig>)
    requires |cfg| == PumpCount && currentEc <= e.targetEc && Abs(e.targetEc - currentEc) >= e.deadband
    ensures var r := EcPlan(currentEc, e, cfg);
      var c := Min(e.targetEc - currentEc, e.maxStep);
      (forall k :: 0 <= k < |r| && r[k].Run? ==> r[k].pump in {EcA, EcB, EcC})
      && (Run(EcA, ShareMs(c, e.ratioA, cfg[EcA])) in r <==> ShareMs(c, e.ratioA, cfg[EcA]) > 0)
      && (Run(EcB, ShareMs(c, e.ratioB, cfg[EcB])) in r <==> ShareMs(c, e.ratioB, cfg[EcB]) > 0)
      && (Run(EcC, ShareMs(c, e.ratioC, cfg[EcC])) in r <==> ShareMs(c, e.ratioC, cfg[EcC]) > 0)
  {
    var c := Min(e.targetEc - currentEc, e.maxStep);
    NutrientRunsCover(ShareMs(c, e.ratioA, cfg[EcA]), ShareMs(c, e.ratioB, cfg[EcB]), ShareMs(c, e.ratioC, cfg[EcC]));
  }

  lemma NutrientRunsCover(da: nat, db: nat, dc: nat)
    ensures var r := NutrientRuns(da, db, dc);
      (forall k :: 0 <= k < |r| && r[k].Run? ==> r[k].pump in {EcA, EcB, EcC})
      && (Run(EcA, da) in r <==> da > 0) && (Run(EcB, db) in r <==> db > 0) && (Run(EcC, dc) in r <==> dc > 0)
  {
    var partA := if da > 0 then [Run(EcA, da), Delay(NutrientPauseMs)] else [];
    var partB := if db > 0 then [Run(EcB, db), Delay(NutrientPauseMs)] else [];
    var partC := if dc > 0 then [Run(EcC, dc)] else [];
    assert NutrientRuns(da, db, dc) == partA + partB + partC;
  }

  /** With equal flow rates the nutrient times follow the ratios. */
  lemma NutrientSharesFollowRatios(c: real, r1: real, r2: real, cfg: PumpConfig)
    requires c >= 0.0 && 0.0 <= r1 <= r2
    ensures ShareMs(c, r1, cfg) <= ShareMs(c, r2, cfg)
  {
    assert c * r1 * 1000.0 <= c * r2 * 1000.0 by {
      assert c * r2 * 1000.0 - c * r1 * 1000.0 == c * (r2 - r1) * 1000.0;
    }
    TruncMonotone(c * r1 * 1000.0, c * r2 * 1000.0, cfg.flowMlPerS);
  }

  /** The nutrient times are not clamped: a small share can run below the pump's minimum time. */
  lemma NutrientTimeBelowMinimum()
    ensures var cfg := seq(PumpCount, _ => DefaultPumpConfig(""));
      EcPlan(1.4, DefaultEcParams, cfg)[..1] == [Run(EcA, 4)]
      && 4 < cfg[EcA].minDurationMs
  {
    var cfg := seq(PumpCount, _ => DefaultPumpConfig(""));
    assert ShareMs(0.1, 0.4, cfg[EcA]) == 4 by {
      assert 0.1 * 0.4 * 1000.0 / 10.0 == 4.0;
    }
  }

  class Controller {
    const configs: array<PumpConfig>
    var phParams: PhParams
    var ecParams: EcParams
    var phAuto: bool
    var ecAuto: bool
    var currentPh: real
    var currentEc: real
    var outputs: seq<Output>

    predicate Valid()
      reads this
    {
      configs.Length == PumpCount
    }

    /** The zero-initialised globals. */
    constructor()
      ensures Valid() && !phAuto && !ecAuto && currentPh == 7.0 && currentEc == 1.0 && outputs == []
    {
      configs := new PumpConfig[PumpCount](_ => PumpConfig(false, 0.0, 0, 0, 0, 0.0, ""));
      phParams := PhParams(0.0, 0.0, 0.0, 0);
      ecParams := EcParams(0.0, 0.0, 0.0, 0, 0.0, 0.0, 0.0);
      phAuto, ecAuto := false, false;
      currentPh, currentEc := 7.0, 1.0;
      outputs := [];
    }

    /** ph_ec_controller_init: default pump configurations and parameters. */
    method Init() returns (err: Err)
      requires Valid()
      modifies this, configs
      ensures Valid() && err == Ok
      ensures forall i :: 0 <= i < PumpCount ==> configs[i] == DefaultPumpConfig(PumpName(i))
      ensures phParams == DefaultPhParams && ecParams == DefaultEcParams
      ensures phAuto == old(phAuto) && ecAuto == old(ecAuto) && outputs == old(outputs)
      ensures currentPh == old(currentPh) && currentEc == old(currentEc)
    {
      var a := configs;
      for i := 0 to PumpCount
        modifies a
        invariant forall j :: 0 <= j < i ==> a[j] == DefaultPumpConfig(PumpName(j))
      {
        a[i] := DefaultPumpConfig(PumpName(i));
      }
      phParams := DefaultPhParams;
      ecParams := DefaultEcParams;
      return Ok;
    }

    function Configs(): (cs: seq<PumpConfig>)
      reads this, configs
      requires Valid()
      ensures |cs| == PumpCount
    {
      configs[..]
    }

    /** ph_ec_controller_set_pump_config; None is a NULL config. */
    method SetPumpConfig(idx: nat, config: Option<PumpConfig>) returns (err: Err)
      requires Valid()
      modifies configs
      ensures idx >= PumpCount || config.None? ==> err == ErrInvalidArg && Configs() == old(Configs())
      ensures idx < PumpCount && config.Some? ==> err == Ok && Configs() == old(Configs())[idx := config.value]
    {
      if idx >= PumpCount || config.None? {
        return ErrInvalidArg;
      }
      configs[idx] := config.value;
      return Ok;
    }

    method SetPhParams(params: Option<PhParams>) returns (err: Err)
      modifies this
      ensures params.None? ==> err == ErrInvalidArg && phParams == old(phParams)
      ensures params.Some? ==> err == Ok && phParams == params.value
      ensures ecParams == old(ecParams) && phAuto == old(phAuto) && ecAuto == old(ecAuto) && outputs == old(outputs)
    {
      if params.None? {
        return ErrInvalidArg;
      }
      phParams := params.value;
      return Ok;
    }

    method SetEcParams(params: Option<EcParams>) returns (err: Err)
      modifies this
      ensures params.None? ==> err == ErrInvalidArg && ecParams == old(ecParams)
      ensures params.Some? ==> err == Ok && ecParams == params.value
      ensures phParams == old(phParams) && phAuto == old(phAuto) && ecAuto == old(ecAuto) && outputs == old(outputs)
    {
      if params.None? {
        return ErrInvalidArg;
      }
      ecParams := params.value;
      return Ok;
    }

    /** ph_ec_controller_set_auto_mode. */
    method SetAutoMode(ph: bool, ec: bool) returns (err: Err)
      modifies this
      ensures err == Ok && phAuto == ph && ecAuto == ec
      ensures phParams == old(phParams) && ecParams == old(ecParams) && outputs == old(outputs)
    {
      phAuto, ecAuto := ph, ec;
      return Ok;
    }

    /** ph_ec_controller_update_values. */
    method UpdateValues(ph: real, ec: real) returns (err: Err)
      modifies this
      ensures err == Ok && currentPh == ph && currentEc == ec
      ensures phParams == old(phParams) && ecParams == old(ecParams) && outputs == old(outputs)
      ensures phAuto == old(phAuto) && ecAuto == old(ecAuto)
    {
      currentPh, currentEc := ph, ec;
      return Ok;
    }

    /** ph_ec_controller_correct_ph: does nothing with auto mode off. */
    method CorrectPh(ph: real) returns (err: Err)
      requires Valid()
      modifies this
      ensures Valid() && err == Ok
      ensures outputs == old(outputs) + (if phAuto then PhPlan(ph, phParams, Configs()) else [])
      ensures phParams == old(phParams) && ecParams == old(ecParams) && phAuto == old(phAuto) && ecAuto == old(ecAuto)
    {
      if !phAuto {
        return Ok;
      }
      var e := ph - phParams.targetPh;
      if Abs(e) < phParams.deadband {
        return Ok;
      }
      var pump := if e > 0.0 then PhDown else PhUp;
      var correction := Min(Abs(e), phParams.maxStep);
      var duration := TruncMs(correction * 1000.0, configs[pump].flowMlPerS);
      duration := ClampMs(duration, configs[pump].minDurationMs, configs[pump].maxDurationMs);
      outputs := outputs + [Run(pump, duration)];
      return Ok;
    }

    /** ph_ec_controller_correct_ec: does nothing with auto mode off. */
    method CorrectEc(ec: real) returns (err: Err)
      requires Valid()
      modifies this
      ensures Valid() && err == Ok
      ensures outputs == old(outputs) + (if ecAuto then EcPlan(ec, ecParams, Configs()) else [])
      ensures phParams == old(phParams) && ecParams == old(ecParams) && phAuto == old(phAuto) && ecAuto == old(ecAuto)
    {
      if !ecAuto {
        return Ok;
      }
      var e := ecParams.targetEc - ec;
      if Abs(e) < ecParams.deadband {
        return Ok;
      }
      if e < 0.0 {
        var duration := TruncMs(Abs(e) * 1000.0, configs[Water].flowMlPerS);
        duration := ClampMs(duration, configs[Water].minDurationMs, configs[Water].maxDurationMs);
        outputs := outputs + [Run(Water, duration)];
      } else {
        var correction := Min(e, ecParams.maxStep);
        var da := ShareMs(correction, ecParams.ratioA, configs[EcA]);
        var db := ShareMs(correction, ecParams.ratioB, configs[EcB]);
        var dc := ShareMs(correction, ecParams.ratioC, configs[EcC]);
        var runs := [];
        if da > 0 {
          runs := runs + [Run(EcA, da), Delay(NutrientPauseMs)];
        }
        if db > 0 {
          runs := runs + [Run(EcB, db), Delay(NutrientPauseMs)];
        }
        if dc > 0 {
          runs := runs + [Run(EcC, dc)];
        }
        assert runs == NutrientRuns(da, db, dc);
        outputs := outputs + runs;
      }
      return Ok;
    }
  }
}
