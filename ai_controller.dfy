/**
 * The heuristic dosing predictor of components/ai_controller: a
 * proportional pH/EC correction with fixed caps, gated by a minimum
 * interval and a minimum confidence, with prediction statistics.
 */
module AiController {

  import opened Wrappers
  import opened Esp

  const PhKp: real := 0.5
  const EcKp: real := 0.3
  const Tolerance: real := 0.1
  const MaxPhMl: real := 50.0
  const MaxEcAbMl: real := 30.0
  const MaxEcCMl: real := 15.0
  const HeuristicConfidence: real := 0.7

  /** ai_system_state_t. */
  datatype SystemState = SystemState(
    currentPh: real, currentEc: real, targetPh: real, targetEc: real,
    temperature: real, sinceLastS: nat)

  /** ai_dosage_prediction_t. */
  datatype Prediction = Prediction(
    phUpMl: real, phDownMl: real, ecAMl: real, ecBMl: real, ecCMl: real, confidence: real)

  const Zero := Prediction(0.0, 0.0, 0.0, 0.0, 0.0, 0.0)

  /** ai_controller_config_t. */
  datatype Config = Config(enabled: bool, minConfidence: real, minIntervalS: nat)

  function Abs(x: real): real { if x < 0.0 then -x else x }

  function Min(a: real, b: real): real { if a < b then a else b }

  /** ai_heuristic_correction on a non-NULL state. */
  function Heuristic(s: SystemState): (p: Prediction)
  {
    var phError := s.targetPh - s.currentPh;
    var ecError := s.targetEc - s.currentEc;
    var phCorrection := phError * PhKp * (1.0 + (s.temperature - 25.0) * 0.01);
    var phDose := Min(Abs(phCorrection) * 10.0, MaxPhMl);
    var ecCorrection := ecError * EcKp;
    var dosePh := Abs(phError) > Tolerance;
    var doseEc := Abs(ecError) > Tolerance && ecError > 0.0;
    Prediction(
      if dosePh && phError > 0.0 then phDose else 0.0,
      if dosePh && phError <= 0.0 then phDose else 0.0,
      if doseEc then Min(ecCorrection * 10.0 * 0.4, MaxEcAbMl) else 0.0,
      if doseEc then Min(ecCorrection * 10.0 * 0.4, MaxEcAbMl) else 0.0,
      if doseEc then Min(ecCorrection * 10.0 * 0.2, MaxEcCMl) else 0.0,
      HeuristicConfidence)
  }

  /** A pH within ±0.1 of the target gives no pH dose. */
  lemma PhToleranceNoDose(s: SystemState)
    requires Abs(s.targetPh - s.currentPh) <= Tolerance
    ensures Heuristic(s).phUpMl == 0.0 && Heuristic(s).phDownMl == 0.0
  {
  }

  /** At most one of pH UP and pH DOWN is dosed, UP only below the target, and neither exceeds 50 ml. */
  lemma PhDoseOneSidedAndCapped(s: SystemState)
    ensures var p := Heuristic(s);
      0.0 <= p.phUpMl <= MaxPhMl && 0.0 <= p.phDownMl <= MaxPhMl
      && (p.phUpMl == 0.0 || p.phDownMl == 0.0)
      && (p.phUpMl > 0.0 ==> s.currentPh < s.targetPh)
      && (p.phDownMl > 0.0 ==> s.currentPh > s.targetPh)
  {
  }

  /** An EC deficit over 0.1 doses A and B up to 30 ml and C up to 15 ml; otherwise no nutrient. */
  lemma EcDoseBounds(s: SystemState)
    ensures var p := Heuristic(s);
      0.0 <= p.ecAMl <= MaxEcAbMl && 0.0 <= p.ecBMl <= MaxEcAbMl && 0.0 <= p.ecCMl <= MaxEcCMl
      && p.ecAMl == p.ecBMl
      && (s.targetEc - s.currentEc > Tolerance <==> p.ecAMl > 0.0)
      && (s.currentEc >= s.targetEc - Tolerance ==> p.ecAMl == 0.0 && p.ecBMl == 0.0 && p.ecCMl == 0.0)
  {
  }

  /** The heuristic always reports confidence 0.7. */
  lemma HeuristicConfidenceFixed(s: SystemState)
    ensures Heuristic(s).confidence == HeuristicConfidence
  {
  }

  /** ai_heuristic_correction; None is a NULL pointer. */
  method HeuristicCorrection(s: Option<SystemState>) returns (err: Err, p: Prediction)
    ensures s.None? ==> err == ErrInvalidArg
    ensures s.Some? ==> err == Ok && p == Heuristic(s.value)
  {
    if s.None? {
      return ErrInvalidArg, Zero;
    }
    return Ok, Heuristic(s.value);
  }

  /** ai_evaluate_trend: needs two samples; the trend is up iff the last pH exceeds the first. */
  function EvaluateTrend(history: seq<SystemState>): (r: Option<bool>)
    ensures r.None? <==> |history| < 2
    ensures r.Some? ==> (r.value <==> history[|history| - 1].currentPh > history[0].currentPh)
  {
    if |history| < 2 then None else Some(history[|history| - 1].currentPh > history[0].currentPh)
  }

  /** A constant pH is never a rising trend. */
  lemma FlatHistoryNotUp(history: seq<SystemState>)
    requires |history| >= 2 && forall i :: 0 <= i < |history| ==> history[i].currentPh == history[0].currentPh
    ensures EvaluateTrend(history) == Some(false)
  {
  }

  class Ai {
    var initialized: bool
    var modelLoaded: bool
    var config: Config
    var predictionsCount: nat
    var correctionsApplied: nat

    constructor()
      ensures !initialized && !modelLoaded && predictionsCount == 0 && correctionsApplied == 0
    {
      initialized, modelLoaded := false, false;
      config := Config(false, 0.0, 0);
      predictionsCount, correctionsApplied := 0, 0;
    }

    /** ai_controller_init: idempotent; the model is never loaded. */
    method Init(c: Option<Config>) returns (err: Err)
      modifies this
      ensures old(initialized) ==> err == Ok && unchanged(this)
      ensures !old(initialized) && c.None? ==> err == ErrInvalidArg && unchanged(this)
      ensures !old(initialized) && c.Some? ==> err == Ok && initialized && !modelLoaded && config == c.value
      ensures predictionsCount == old(predictionsCount) && correctionsApplied == old(correctionsApplied)
    {
      if initialized {
        return Ok;
      }
      if c.None? {
        return ErrInvalidArg;
      }
      config := c.value;
      modelLoaded := false;
      initialized := true;
      return Ok;
    }

    method Deinit() returns (err: Err)
      modifies this
      ensures err == Ok && !initialized && !modelLoaded
      ensures config == old(config) && predictionsCount == old(predictionsCount)
      ensures correctionsApplied == old(correctionsApplied)
    {
      modelLoaded := false;
      initialized := false;
      return Ok;
    }

    /**
     * ai_predict_correction.  Too soon after the last correction gives an
     * all-zero prediction and no statistics; otherwise the heuristic runs,
     * is counted, and is dropped when its confidence is below the minimum.
     */
    method Predict(s: Option<SystemState>) returns (err: Err, p: Prediction)
      modifies this
      ensures !old(initialized) ==> err == ErrInvalidState && unchanged(this)
      ensures old(initialized) && s.None? ==> err == ErrInvalidArg && unchanged(this)
      ensures old(initialized) && s.Some? && s.value.sinceLastS < config.minIntervalS ==>
        err == Ok && p == Zero && unchanged(this)
      ensures old(initialized) && s.Some? && s.value.sinceLastS >= config.minIntervalS ==>
        err == Ok && predictionsCount == old(predictionsCount) + 1
        && (HeuristicConfidence < config.minConfidence ==>
              p == Zero && correctionsApplied == old(correctionsApplied))
        && (HeuristicConfidence >= config.minConfidence ==>
              p == Heuristic(s.value) && correctionsApplied == old(correctionsApplied) + 1)
      ensures initialized == old(initialized) && config == old(config) && modelLoaded == old(modelLoaded)
    {
      if !initialized {
        return ErrInvalidState, Zero;
      }
      if s.None? {
        return ErrInvalidArg, Zero;
      }
      if s.value.sinceLastS < config.minIntervalS {
        return Ok, Zero;
      }
      // the loaded-model branch and the fallback both use the heuristic
      err, p := HeuristicCorrection(s);
      predictionsCount := predictionsCount + 1;
      if p.confidence < config.minConfidence {
        p := Zero;
      } else {
        correctionsApplied := correctionsApplied + 1;
      }
    }
  }
}
