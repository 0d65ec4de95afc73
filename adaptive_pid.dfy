/**
 * The discrete part of components/adaptive_pid: per pump a 50-slot history
 * ring, a learned buffer capacity, coefficients adapted from it, a safe
 * mode that falls back to the base coefficients, the learned dose and the
 * cooldown after a failed prediction.  The seconds clock is a parameter.
 */
module AdaptivePid {

  import opened Wrappers
  import opened Esp
  import opened Seqs

  const PumpCount := 6
  const HistorySize := 50
  const U32 := 0x1_0000_0000

  const DefaultCapacity: real := 2.5
  const DefaultEffectiveness: real := 0.8
  const MinCapacity: real := 0.1
  const MaxCapacity: real := 50.0
  const FailedCooldownS := 3 * 3600

  const PhUp := 0
  const PhDown := 1
  const EcA := 2
  const EcC := 4
  const Water := 5

  datatype Coeffs = Coeffs(kp: real, ki: real, kd: real)

  /** The base coefficients adaptive_pid_init gives each pump. */
  function BaseCoefficients(pump: nat): (c: Coeffs)
    ensures pump == PhUp || pump == PhDown ==> c == Coeffs(2.0, 0.5, 0.1)
    ensures EcA <= pump <= EcC ==> c == Coeffs(1.5, 0.3, 0.05)
    ensures pump == Water ==> c == Coeffs(1.0, 0.2, 0.0)
  {
    if pump == PhUp || pump == PhDown then Coeffs(2.0, 0.5, 0.1)
    else if EcA <= pump <= EcC then Coeffs(1.5, 0.3, 0.05)
    else if pump == Water then Coeffs(1.0, 0.2, 0.0)
    else Coeffs(2.0, 0.5, 0.1)
  }

  function Abs(x: real): real { if x < 0.0 then -x else x }

  /** The factor of adapt_coefficients: capacity first, then effectiveness. */
  function AdaptationFactor(capacity: real, effectiveness: real): (f: real)
    ensures 0.76 <= f <= 1.32
  {
    var byCapacity := if capacity > 5.0 then 1.2 else if capacity < 2.0 then 0.8 else 1.0;
    if effectiveness > 0.9 then byCapacity * 0.95
    else if effectiveness < 0.7 then byCapacity * 1.1
    else byCapacity
  }

  /** A more strongly buffered solution never gets a smaller factor. */
  lemma FactorMonotoneInCapacity(c1: real, c2: real, e: real)
    requires c1 <= c2
    ensures AdaptationFactor(c1, e) <= AdaptationFactor(c2, e)
  {
  }

  /** A more effective system never gets a larger factor. */
  lemma FactorAntitoneInEffectiveness(c: real, e1: real, e2: real)
    requires e1 <= e2
    ensures AdaptationFactor(c, e1) >= AdaptationFactor(c, e2)
  {
  }

  /** The coefficients adapt_coefficients stores. */
  function Adapted(adaptiveMode: bool, learned: bool, capacity: real, effectiveness: real, base: Coeffs): (c: Coeffs)
    ensures !adaptiveMode || !learned ==> c == base
    ensures adaptiveMode && learned ==>
      var f := AdaptationFactor(capacity, effectiveness);
      c.kp == base.kp * f && c.ki == base.ki * f && c.kd == base.kd * f
  {
    if !adaptiveMode || !learned then base
    else
      var f := AdaptationFactor(capacity, effectiveness);
      Coeffs(base.kp * f, base.ki * f, base.kd * f)
  }

  /** For a positive base gain, the adapted gain stays within [0.76, 1.32] times the base. */
  lemma AdaptedWithinBand(adaptiveMode: bool, learned: bool, capacity: real, effectiveness: real, base: Coeffs)
    requires base.kp >= 0.0
    ensures var c := Adapted(adaptiveMode, learned, capacity, effectiveness, base);
      base.kp * 0.76 <= c.kp <= base.kp * 1.32
  {
    var f := AdaptationFactor(capacity, effectiveness);
    if adaptiveMode && learned {
      assert base.kp * 0.76 <= base.kp * f by { MulLe(base.kp, 0.76, f); }
      assert base.kp * f <= base.kp * 1.32 by { MulLe(base.kp, f, 1.32); }
    }
  }

  lemma MulLe(k: real, a: real, b: real)
    requires k >= 0.0 && a <= b
    ensures k * a <= k * b
  {
  }

  /** What learning keeps: the capacity, whether it was learned, and the accepted-sample count. */
  datatype Learning = Learning(capacity: real, learned: bool, corrections: nat)

  /** Whether a before/after/dose sample passes the filters of learn_buffer_capacity. */
  predicate Accepted(before: real, after: real, doseMl: real)
  {
    var change := Abs(after - before);
    change >= 0.01 && doseMl >= 0.1
    && MinCapacity <= doseMl / (change * 10.0) <= MaxCapacity
  }

  /** adaptive_pid_learn_buffer_capacity on the learning state. */
  function LearnStep(l: Learning, learningMode: bool, before: real, after: real, doseMl: real): (r: Learning)
  {
    if !learningMode || !Accepted(before, after, doseMl) then l
    else
      var measured := doseMl / (Abs(after - before) * 10.0);
      if !l.learned then Learning(measured, true, l.corrections + 1)
      else Learning(l.capacity * 0.7 + measured * 0.3, true, l.corrections + 1)
  }

  /** A sample is counted exactly when learning is on and the sample passes the filters. */
  lemma LearnCountsAcceptedOnly(l: Learning, learningMode: bool, before: real, after: real, doseMl: real)
    ensures var r := LearnStep(l, learningMode, before, after, doseMl);
      (learningMode && Accepted(before, after, doseMl) ==> r.corrections == l.corrections + 1 && r.learned)
      && (!(learningMode && Accepted(before, after, doseMl)) ==> r == l)
  {
  }

  /**
   * The first accepted sample sets the capacity to the measured one; later
   * ones move it 30% of the way to the measurement.
   */
  lemma LearnSmoothing(l: Learning, before: real, after: real, doseMl: real)
    requires Accepted(before, after, doseMl)
    ensures var m := doseMl / (Abs(after - before) * 10.0);
      var r := LearnStep(l, true, before, after, doseMl);
      (!l.learned ==> r.capacity == m)
      && (l.learned ==> r.capacity - l.capacity == (m - l.capacity) * 0.3)
  {
  }

  /** The capacity stays in [0.1, 50] once it is there: learning only averages accepted measurements into it. */
  lemma LearnKeepsCapacityInRange(l: Learning, learningMode: bool, before: real, after: real, doseMl: real)
    requires MinCapacity <= l.capacity <= MaxCapacity
    ensures MinCapacity <= LearnStep(l, learningMode, before, after, doseMl).capacity <= MaxCapacity
  {
    if learningMode && Accepted(before, after, doseMl) {
      var m := doseMl / (Abs(after - before) * 10.0);
      assert MinCapacity <= m <= MaxCapacity;
    }
  }

  /** adaptive_pid_calculate_dose: |error| * 10 * capacity, with 2.5 until a capacity above 0.1 is learned. */
  function DoseMl(learned: bool, capacity: real, current: real, target: real): (d: real)
  {
    var error := Abs(target - current);
    if learned && capacity > MinCapacity then error * 10.0 * capacity else error * 10.0 * DefaultCapacity
  }

  /** The dose is never negative and is zero exactly at the target. */
  lemma DoseZeroIffAtTarget(learned: bool, capacity: real, current: real, target: real)
    ensures DoseMl(learned, capacity, current, target) >= 0.0
    ensures DoseMl(learned, capacity, current, target) == 0.0 <==> current == target
  {
    var error := Abs(target - current);
    var c := if learned && capacity > MinCapacity then capacity else DefaultCapacity;
    assert DoseMl(learned, capacity, current, target) == error * 10.0 * c;
    assert c > 0.0;
    if current != target {
      assert error > 0.0;
      assert error * 10.0 > 0.0;
      assert error * 10.0 * c > 0.0;
    }
  }

  /** Without a learned capacity the dose is 25 ml per unit of error. */
  lemma DefaultDoseRate(capacity: real, current: real, target: real)
    ensures DoseMl(false, capacity, current, target) == Abs(target - current) * 25.0
  {
  }

  /**
   * The slot the least-squares fit reads for its i-th sample, as written: slot
   * i, except at or past the write index of a ring that has wrapped.
   */
  function RegressionSlotAsWritten(index: nat, i: nat): (k: nat)
    requires index < HistorySize && i < HistorySize
    ensures k < HistorySize
  {
    if index > 0 && i >= index then (index + i) % HistorySize else i
  }

  /** Once the ring has wrapped, two samples read the same slot. */
  lemma RegressionReadsSlotTwice()
    ensures RegressionSlotAsWritten(10, 0) == RegressionSlotAsWritten(10, 40) == 0
  {
  }

  /** The slot of the i-th oldest sample of the ring. */
  function RegressionSlot(index: nat, count: nat, i: nat): (k: nat)
    requires RingIndexOk(index, count, HistorySize) && i < count
    ensures k < HistorySize
  {
    if count < HistorySize then i else (index + i) % HistorySize
  }

  /** The corrected slots read the ring's contents oldest first, each exactly once. */
  lemma RegressionSlotReadsRingInOrder(a: seq<real>, index: nat, count: nat, i: nat)
    requires |a| == HistorySize && RingIndexOk(index, count, HistorySize) && i < count
    ensures a[RegressionSlot(index, count, i)] == RingView(a, index, count, HistorySize)[i]
  {
    if count == HistorySize {
      if index + i < HistorySize {
        assert (index + i) % HistorySize == index + i;
      } else {
        assert (index + i) % HistorySize == index + i - HistorySize;
      }
    }
  }

  /** adaptive_pid_state_t of one pump. */
  class State {
    const pump: nat
    const history: array<real>
    const timestamps: array<nat>
    var historyIndex: nat
    var historyCount: nat
    var capacity: real
    var learned: bool
    var totalCorrections: nat
    var successfulCorrections: nat
    var effectiveness: real
    var confidence: real
    var predicted1h: real
    var predicted3h: real
    var trendSlope: real
    var trendStable: bool
    var coeffs: Coeffs
    var autoTuning: bool
    var predictionEnabled: bool
    var learningMode: bool
    var adaptiveMode: bool
    var safeMode: bool
    var failedPredictions: nat
    var cooldownUntil: nat

    predicate Valid()
      reads this
    {
      history.Length == HistorySize && timestamps.Length == HistorySize
      && RingIndexOk(historyIndex, historyCount, HistorySize)
      && MinCapacity <= capacity <= MaxCapacity
    }

    /** The stored values, oldest first. */
    function Recent(): (r: seq<real>)
      requires Valid()
      reads this, history
      ensures |r| == historyCount
    {
      RingView(history[..], historyIndex, historyCount, HistorySize)
    }

    /** The learning part of the state. */
    function LearningState(): Learning
      reads this
    {
      Learning(capacity, learned, totalCorrections)
    }

    /** The defaults adaptive_pid_init gives a pump before any stored data is loaded. */
    constructor(p: nat)
      ensures Valid() && pump == p && Recent() == [] && fresh(history) && fresh(timestamps)
      ensures capacity == DefaultCapacity && !learned && totalCorrections == 0
      ensures effectiveness == DefaultEffectiveness && confidence == 0.0
      ensures coeffs == BaseCoefficients(p)
      ensures learningMode && !predictionEnabled && adaptiveMode && !safeMode && !autoTuning
    {
      pump := p;
      history := new real[HistorySize](_ => 0.0);
      timestamps := new nat[HistorySize](_ => 0);
      historyIndex, historyCount := 0, 0;
      capacity, learned := DefaultCapacity, false;
      totalCorrections, successfulCorrections := 0, 0;
      effectiveness, confidence := DefaultEffectiveness, 0.0;
      predicted1h, predicted3h, trendSlope, trendStable := 0.0, 0.0, 0.0, false;
      coeffs := BaseCoefficients(p);
      autoTuning, predictionEnabled, learningMode, adaptiveMode, safeMode := false, false, true, true, false;
      failedPredictions, cooldownUntil := 0, 0;
    }

    /** add_to_history: the value and its time stamp go into the ring. */
    method AddToHistory(value: real, nowS: nat)
      requires Valid()
      modifies this, history, timestamps
      ensures Valid() && Recent() == PushBounded(old(Recent()), value, HistorySize)
      ensures LearningState() == old(LearningState()) && coeffs == old(coeffs)
      ensures timestamps[old(historyIndex)] == nowS
    {
      RingPush(history[..], historyIndex, historyCount, HistorySize, value);
      history[historyIndex] := value;
      timestamps[historyIndex] := nowS;
      historyIndex := (historyIndex + 1) % HistorySize;
      if historyCount < HistorySize {
        historyCount := historyCount + 1;
      }
    }

    /** adapt_coefficients. */
    method Adapt()
      modifies this
      ensures coeffs == Adapted(adaptiveMode, learned, capacity, effectiveness, BaseCoefficients(pump))
      ensures LearningState() == old(LearningState()) && adaptiveMode == old(adaptiveMode)
      ensures safeMode == old(safeMode) && historyIndex == old(historyIndex) && historyCount == old(historyCount)
      ensures effectiveness == old(effectiveness) && learningMode == old(learningMode)
      ensures predictionEnabled == old(predictionEnabled) && autoTuning == old(autoTuning)
    {
      var base := BaseCoefficients(pump);
      if !adaptiveMode || !learned {
        coeffs := base;
        return;
      }
      var factor := 1.0;
      if capacity > 5.0 {
        factor := 1.2;
      } else if capacity < 2.0 {
        factor := 0.8;
      }
      if effectiveness > 0.9 {
        factor := factor * 0.95;
      } else if effectiveness < 0.7 {
        factor := factor * 1.1;
      }
      coeffs := Coeffs(base.kp * factor, base.ki * factor, base.kd * factor);
    }

    /** adaptive_pid_learn_buffer_capacity; an accepted sample also re-adapts the coefficients. */
    method Learn(before: real, after: real, doseMl: real)
      requires Valid()
      modifies this
      ensures Valid()
      ensures LearningState() == LearnStep(old(LearningState()), learningMode, before, after, doseMl)
      ensures learningMode && Accepted(before, after, doseMl) ==>
        coeffs == Adapted(adaptiveMode, learned, capacity, effectiveness, BaseCoefficients(pump))
      ensures !(learningMode && Accepted(before, after, doseMl)) ==> coeffs == old(coeffs)
      ensures learningMode == old(learningMode) && adaptiveMode == old(adaptiveMode) && safeMode == old(safeMode)
      ensures historyIndex == old(historyIndex) && historyCount == old(historyCount)
    {
      ghost var l0 := LearningState();
      LearnKeepsCapacityInRange(l0, learningMode, before, after, doseMl);
      if !learningMode {
        return;
      }
      var change := Abs(after - before);
      if change < 0.01 || doseMl < 0.1 {
        return;
      }
      var measured := doseMl / (change * 10.0);
      if measured < MinCapacity || measured > MaxCapacity {
        return;
      }
      assert Accepted(before, after, doseMl);
      if !learned {
        capacity := measured;
        learned := true;
      } else {
        capacity := capacity * 0.7 + measured * 0.3;
      }
      totalCorrections := totalCorrections + 1;
      assert LearningState() == LearnStep(l0, learningMode, before, after, doseMl);
      Adapt();
    }

    /** adaptive_pid_get_coefficients: the base ones in safe mode, else the adapted ones. */
    function Coefficients(): (c: Coeffs)
      reads this
      ensures safeMode ==> c == BaseCoefficients(pump)
      ensures !safeMode ==> c == coeffs
    {
      if safeMode then BaseCoefficients(pump) else coeffs
    }

    method SetLearningMode(enable: bool)
      modifies this
      ensures learningMode == enable && LearningState() == old(LearningState()) && coeffs == old(coeffs)
      ensures safeMode == old(safeMode) && adaptiveMode == old(adaptiveMode)
      ensures predictionEnabled == old(predictionEnabled) && capacity == old(capacity)
      ensures historyIndex == old(historyIndex) && historyCount == old(historyCount)
    {
      learningMode := enable;
    }

    method SetPredictionMode(enable: bool)
      modifies this
      ensures predictionEnabled == enable && LearningState() == old(LearningState()) && coeffs == old(coeffs)
      ensures safeMode == old(safeMode) && adaptiveMode == old(adaptiveMode) && learningMode == old(learningMode)
      ensures capacity == old(capacity) && historyIndex == old(historyIndex) && historyCount == old(historyCount)
    {
      predictionEnabled := enable;
    }

    /** adaptive_pid_set_adaptive_mode: the coefficients are recomputed for the new mode. */
    method SetAdaptiveMode(enable: bool)
      modifies this
      ensures adaptiveMode == enable
      ensures coeffs == Adapted(enable, learned, capacity, effectiveness, BaseCoefficients(pump))
      ensures LearningState() == old(LearningState()) && safeMode == old(safeMode)
      ensures capacity == old(capacity) && historyIndex == old(historyIndex) && historyCount == old(historyCount)
    {
      adaptiveMode := enable;
      Adapt();
    }

    /**
     * adaptive_pid_reset_learning: history, capacity, counters and trends go
     * back to their initial values; the stored coefficients are left as they are.
     */
    method ResetLearning()
      requires Valid()
      modifies this, history, timestamps
      ensures Valid() && Recent() == [] && historyIndex == 0
      ensures forall i :: 0 <= i < HistorySize ==> history[i] == 0.0 && timestamps[i] == 0
      ensures LearningState() == Learning(DefaultCapacity, false, 0) && successfulCorrections == 0
      ensures effectiveness == DefaultEffectiveness && confidence == 0.0
      ensures predicted1h == 0.0 && predicted3h == 0.0 && trendSlope == 0.0 && !trendStable
      ensures coeffs == old(coeffs) && safeMode == old(safeMode) && adaptiveMode == old(adaptiveMode)
      ensures learningMode == old(learningMode) && predictionEnabled == old(predictionEnabled)
    {
      ClearRing();
      capacity, learned := DefaultCapacity, false;
      totalCorrections, successfulCorrections := 0, 0;
      effectiveness, confidence := DefaultEffectiveness, 0.0;
      predicted1h, predicted3h, trendSlope, trendStable := 0.0, 0.0, 0.0, false;
    }

    /** The two memsets and the index reset of adaptive_pid_reset_learning. */
    method ClearRing()
      requires Valid()
      modifies this, history, timestamps
      ensures Valid() && historyIndex == 0 && historyCount == 0
      ensures forall i :: 0 <= i < HistorySize ==> history[i] == 0.0 && timestamps[i] == 0
      ensures LearningState() == old(LearningState()) && coeffs == old(coeffs) && effectiveness == old(effectiveness)
      ensures confidence == old(confidence) && safeMode == old(safeMode) && adaptiveMode == old(adaptiveMode)
      ensures learningMode == old(learningMode) && predictionEnabled == old(predictionEnabled)
    {
      var h := history;
      var t := timestamps;
      for i := 0 to HistorySize
        modifies h, t
        invariant forall j :: 0 <= j < i ==> h[j] == 0.0 && t[j] == 0
      {
        h[i] := 0.0;
        t[i] := 0;
      }
      historyIndex, historyCount := 0, 0;
    }

    /** adaptive_pid_set_safe_mode: entering safe mode switches prediction, adaptation and auto-tuning off. */
    method SetSafeMode(enable: bool)
      modifies this
      ensures safeMode == enable
      ensures enable ==> !predictionEnabled && !adaptiveMode && !autoTuning && Coefficients() == BaseCoefficients(pump)
      ensures !enable ==> predictionEnabled == old(predictionEnabled) && adaptiveMode == old(adaptiveMode)
                          && autoTuning == old(autoTuning)
      ensures coeffs == old(coeffs) && LearningState() == old(LearningState()) && learningMode == old(learningMode)
      ensures capacity == old(capacity) && historyIndex == old(historyIndex) && historyCount == old(historyCount)
    {
      safeMode := enable;
      if enable {
        predictionEnabled, adaptiveMode, autoTuning := false, false, false;
      }
    }

    /** adaptive_pid_calculate_dose. */
    function Dose(current: real, target: real): (d: real)
      reads this
      ensures d >= 0.0 && (d == 0.0 <==> current == target)
    {
      DoseZeroIffAtTarget(learned, capacity, current, target);
      DoseMl(learned, capacity, current, target)
    }

    /** adaptive_pid_handle_failed_prediction: counted, confidence cut by 20%, predictions off for 3 hours. */
    method HandleFailedPrediction(nowS: nat)
      requires nowS < U32
      modifies this
      ensures failedPredictions == old(failedPredictions) + 1
      ensures confidence == old(confidence) * 0.8
      ensures cooldownUntil == (nowS + FailedCooldownS) % U32
      ensures nowS + FailedCooldownS < U32 ==> cooldownUntil - nowS == FailedCooldownS
      ensures LearningState() == old(LearningState()) && coeffs == old(coeffs) && safeMode == old(safeMode)
      ensures capacity == old(capacity) && historyIndex == old(historyIndex) && historyCount == old(historyCount)
    {
      failedPredictions := failedPredictions + 1;
      confidence := confidence * 0.8;
      cooldownUntil := (nowS + FailedCooldownS) % U32;
    }
  }

  /** The six per-pump states with the index checks of the public functions. */
  class Controller {
    const states: seq<State>

    predicate Valid()
      reads this, states
    {
      |states| == PumpCount
      && (forall i :: 0 <= i < |states| ==> states[i].Valid() && states[i].pump == i)
      && (forall i, j :: 0 <= i < j < |states| ==> states[i] != states[j])
    }

    function Footprint(idx: nat): set<object>
      reads this
    {
      if idx < |states| then {states[idx], states[idx].history, states[idx].timestamps} else {}
    }

    constructor(s: seq<State>)
      requires |s| == PumpCount
      requires forall i :: 0 <= i < |s| ==> s[i].Valid() && s[i].pump == i
      requires forall i, j :: 0 <= i < j < |s| ==> s[i] != s[j]
      ensures Valid() && states == s
    {
      states := s;
    }

    /** adaptive_pid_update_history (the trend fit is not modelled). */
    method UpdateHistory(idx: nat, value: real, nowS: nat) returns (err: Err)
      requires Valid()
      modifies Footprint(idx)
      ensures Valid()
      ensures idx >= PumpCount <==> err == ErrInvalidArg
      ensures idx < PumpCount ==> states[idx].Recent() == PushBounded(old(states[idx].Recent()), value, HistorySize)
    {
      if idx >= PumpCount {
        return ErrInvalidArg;
      }
      states[idx].AddToHistory(value, nowS);
      return Ok;
    }

    method LearnBufferCapacity(idx: nat, before: real, after: real, doseMl: real) returns (err: Err)
      requires Valid()
      modifies Footprint(idx)
      ensures Valid()
      ensures idx >= PumpCount <==> err == ErrInvalidArg
      ensures idx < PumpCount ==>
        states[idx].LearningState()
        == LearnStep(old(states[idx].LearningState()), old(states[idx].learningMode), before, after, doseMl)
    {
      if idx >= PumpCount {
        return ErrInvalidArg;
      }
      states[idx].Learn(before, after, doseMl);
      return Ok;
    }

    /** adaptive_pid_get_coefficients: changes nothing. */
    method GetCoefficients(idx: nat) returns (err: Err, c: Coeffs)
      requires Valid()
      ensures idx >= PumpCount <==> err == ErrInvalidArg
      ensures idx < PumpCount && states[idx].safeMode ==> c == BaseCoefficients(idx)
      ensures idx < PumpCount && !states[idx].safeMode ==> c == states[idx].coeffs
    {
      if idx >= PumpCount {
        return ErrInvalidArg, Coeffs(0.0, 0.0, 0.0);
      }
      return Ok, states[idx].Coefficients();
    }

    /** adaptive_pid_calculate_dose: changes nothing. */
    method CalculateDose(idx: nat, current: real, target: real) returns (err: Err, doseMl: real)
      requires Valid()
      ensures idx >= PumpCount <==> err == ErrInvalidArg
      ensures idx < PumpCount ==> doseMl == DoseMl(states[idx].learned, states[idx].capacity, current, target)
      ensures err == Ok ==> (doseMl == 0.0 <==> current == target)
    {
      if idx >= PumpCount {
        return ErrInvalidArg, 0.0;
      }
      doseMl := states[idx].Dose(current, target);
      DoseZeroIffAtTarget(states[idx].learned, states[idx].capacity, current, target);
      err := Ok;
    }

    method SetSafeMode(idx: nat, enable: bool) returns (err: Err)
      requires Valid()
      modifies Footprint(idx)
      ensures Valid()
      ensures idx >= PumpCount <==> err == ErrInvalidArg
      ensures idx < PumpCount && enable ==>
        states[idx].safeMode && !states[idx].adaptiveMode && !states[idx].predictionEnabled
        && states[idx].Coefficients() == BaseCoefficients(idx)
      ensures idx < PumpCount && !enable ==> !states[idx].safeMode
    {
      if idx >= PumpCount {
        return ErrInvalidArg;
      }
      states[idx].SetSafeMode(enable);
      return Ok;
    }

    method SetLearningMode(idx: nat, enable: bool) returns (err: Err)
      requires Valid()
      modifies Footprint(idx)
      ensures Valid()
      ensures idx >= PumpCount <==> err == ErrInvalidArg
      ensures idx < PumpCount ==> states[idx].learningMode == enable
    {
      if idx >= PumpCount {
        return ErrInvalidArg;
      }
      states[idx].SetLearningMode(enable);
      return Ok;
    }

    method SetPredictionMode(idx: nat, enable: bool) returns (err: Err)
      requires Valid()
      modifies Footprint(idx)
      ensures Valid()
      ensures idx >= PumpCount <==> err == ErrInvalidArg
      ensures idx < PumpCount ==> states[idx].predictionEnabled == enable
    {
      if idx >= PumpCount {
        return ErrInvalidArg;
      }
      states[idx].SetPredictionMode(enable);
      return Ok;
    }

    method SetAdaptiveMode(idx: nat, enable: bool) returns (err: Err)
      requires Valid()
      modifies Footprint(idx)
      ensures Valid()
      ensures idx >= PumpCount <==> err == ErrInvalidArg
      ensures idx < PumpCount ==>
        states[idx].adaptiveMode == enable
        && states[idx].coeffs
           == Adapted(enable, states[idx].learned, states[idx].capacity, states[idx].effectiveness, BaseCoefficients(idx))
    {
      if idx >= PumpCount {
        return ErrInvalidArg;
      }
      states[idx].SetAdaptiveMode(enable);
      return Ok;
    }

    method ResetLearning(idx: nat) returns (err: Err)
      requires Valid()
      modifies Footprint(idx)
      ensures Valid()
      ensures idx >= PumpCount <==> err == ErrInvalidArg
      ensures idx < PumpCount ==>
        states[idx].Recent() == [] && states[idx].LearningState() == Learning(DefaultCapacity, false, 0)
    {
      if idx >= PumpCount {
        return ErrInvalidArg;
      }
      states[idx].ResetLearning();
      return Ok;
    }

    method HandleFailedPrediction(idx: nat, nowS: nat) returns (err: Err)
      requires Valid() && nowS < U32
      modifies Footprint(idx)
      ensures Valid()
      ensures idx >= PumpCount <==> err == ErrInvalidArg
      ensures idx < PumpCount ==>
        states[idx].failedPredictions == old(states[idx].failedPredictions) + 1
        && states[idx].cooldownUntil == (nowS + FailedCooldownS) % U32
    {
      if idx >= PumpCount {
        return ErrInvalidArg;
      }
      states[idx].HandleFailedPrediction(nowS);
      return Ok;
    }

    /** adaptive_pid_get_state: None for an index out of range. */
    function GetState(idx: nat): (r: Option<State>)
      reads this
      ensures r.Some? <==> idx < PumpCount && idx < |states|
      ensures r.Some? ==> r.value == states[idx]
    {
      if idx >= PumpCount || idx >= |states| then None else Some(states[idx])
    }
  }
}
