/**
 * components/lvgl_ui/ph_screen: the pH detail, settings and three-point
 * calibration screens.  The module owns the pH parameters (held in NVS
 * namespace "ph_params") and the calibration step.  Floats are modelled as
 * reals, each NVS transfer's outcome is a parameter, and `loaded` records
 * which screen was last loaded.
 */
module PhScreen {

  import opened Wrappers
  import opened Esp
  import opened LvEvents

  /** ph_params_t. */
  datatype Params = Params(
    current: real, target: real,
    notificationHigh: real, notificationLow: real,
    pumpHigh: real, pumpLow: real,
    point1Ref: real, point1Raw: real,
    point2Ref: real, point2Raw: real,
    point3Ref: real, point3Raw: real,
    calibrationValid: bool)

  const Defaults := Params(7.0, 6.5, 7.2, 5.8, 7.5, 5.5, 4.0, 4.0, 7.0, 7.0, 10.0, 10.0, false)

  datatype Loaded = NoScreen | Detail | Settings | Calibration

  /**
   * What a load makes of the parameters: every stored value replaces its
   * parameter except the current reading, which is not stored; with nothing
   * stored they stay as they are.
   */
  function Adopted(stored: Option<Params>, p: Params): (r: Params)
    ensures r.current == p.current
    ensures stored.None? ==> r == p
    ensures stored.Some? ==> SameSettings(r, stored.value.(current := p.current))
    ensures stored.Some? ==> forall k :: 1 <= k <= 3 ==> PointOf(r, k) == PointOf(stored.value, k)
  {
    if stored.Some? then stored.value.(current := p.current) else p
  }

  /** The reference and measured value of calibration point k. */
  function PointOf(p: Params, k: nat): (real, real)
    requires 1 <= k <= 3
  {
    if k == 1 then (p.point1Ref, p.point1Raw)
    else if k == 2 then (p.point2Ref, p.point2Raw)
    else (p.point3Ref, p.point3Raw)
  }

  /** The parameters with point k set to the reference `ref` and the measured value `raw`. */
  function WithPoint(p: Params, k: nat, ref: real, raw: real): Params
    requires 1 <= k <= 3
  {
    if k == 1 then p.(point1Ref := ref, point1Raw := raw)
    else if k == 2 then p.(point2Ref := ref, point2Raw := raw)
    else p.(point3Ref := ref, point3Raw := raw)
  }

  /** Everything but the calibration points. */
  predicate SameSettings(p: Params, q: Params)
  {
    && p.current == q.current && p.target == q.target
    && p.notificationHigh == q.notificationHigh && p.notificationLow == q.notificationLow
    && p.pumpHigh == q.pumpHigh && p.pumpLow == q.pumpLow
    && p.calibrationValid == q.calibrationValid
  }

  /** Setting point k changes point k to the given pair and nothing else. */
  lemma WithPointSetsOnlyThatPoint(p: Params, k: nat, ref: real, raw: real, j: nat)
    requires 1 <= k <= 3 && 1 <= j <= 3
    ensures PointOf(WithPoint(p, k, ref, raw), j) == (if j == k then (ref, raw) else PointOf(p, j))
    ensures SameSettings(WithPoint(p, k, ref, raw), p)
  {
  }

  /** The buffer the Next button records for a step: pH 4.0, 7.0, then 10.0. */
  function BufferFor(step: nat): (r: real)
    ensures step == 1 ==> r == 4.0
    ensures step == 2 ==> r == 7.0
    ensures step != 1 && step != 2 ==> r == 10.0
  {
    if step == 1 then 4.0 else if step == 2 then 7.0 else 10.0
  }

  /** What the Next button stores for a step: the buffer and the current reading, at points 1..3 only. */
  function Recorded(p: Params, step: nat): Params
  {
    if 1 <= step <= 3 then WithPoint(p, step, BufferFor(step), p.current) else p
  }

  /** Three Next presses from step 1 store the three buffers, each against the reading, and change nothing else. */
  lemma CalibrationRecordsThreeBuffers(p: Params)
    ensures var q := Recorded(Recorded(Recorded(p, 1), 2), 3);
      && PointOf(q, 1) == (4.0, p.current)
      && PointOf(q, 2) == (7.0, p.current)
      && PointOf(q, 3) == (10.0, p.current)
      && SameSettings(q, p)
  {
    var p1 := Recorded(p, 1);
    var p2 := Recorded(p1, 2);
    WithPointSetsOnlyThatPoint(p, 1, 4.0, p.current, 1);
    WithPointSetsOnlyThatPoint(p1, 2, 7.0, p.current, 1);
    WithPointSetsOnlyThatPoint(p2, 3, 10.0, p.current, 1);
    WithPointSetsOnlyThatPoint(p2, 3, 10.0, p.current, 2);
  }

  /** The calibration step after a Next press: calibration_step is a uint8_t. */
  function NextStep(step: nat): (s: nat)
    requires step < 256
    ensures s < 256
    ensures step < 255 ==> s == step + 1
  {
    (step + 1) % 256
  }

  class Screens {
    var params: Params
    /** calibration_step. */
    var step: nat
    /** The "ph_params" namespace as written by the last successful save. */
    var nvs: Option<Params>
    var loaded: Loaded
    var hasCloseCallback: bool
    /** How many times the close callback ran. */
    var closes: nat

    predicate Valid()
      reads this
    {
      step < 256
    }

    /** The module's initial state; `stored` is what NVS holds from an earlier run. */
    constructor(stored: Option<Params>)
      ensures Valid() && params == Defaults && step == 0 && nvs == stored
      ensures loaded == NoScreen && !hasCloseCallback && closes == 0
    {
      params := Defaults;
      step := 0;
      nvs := stored;
      loaded := NoScreen;
      hasCloseCallback := false;
      closes := 0;
    }

    /** ph_save_to_nvs: `openOk` is nvs_open's outcome, `commit` nvs_commit's. */
    method Save(openOk: bool, commit: Err) returns (err: Err)
      modifies this
      ensures !openOk ==> err != Ok && nvs == old(nvs)
      ensures openOk ==> err == commit && nvs == (if commit == Ok then Some(params) else old(nvs))
      ensures params == old(params) && step == old(step) && loaded == old(loaded)
      ensures hasCloseCallback == old(hasCloseCallback) && closes == old(closes)
    {
      if !openOk {
        return ErrIo(0);
      }
      if commit == Ok {
        nvs := Some(params);
      }
      return commit;
    }

    /**
     * ph_load_from_nvs: every stored value replaces the parameter, except
     * the current reading, which is not stored.
     */
    method Load(openOk: bool) returns (err: Err)
      modifies this
      ensures !openOk || nvs.None? ==> err != Ok && params == old(params)
      ensures openOk && nvs.Some? ==> err == Ok && params == Adopted(nvs, old(params))
      ensures nvs == old(nvs) && step == old(step) && loaded == old(loaded)
      ensures hasCloseCallback == old(hasCloseCallback) && closes == old(closes)
    {
      if !openOk || nvs.None? {
        return ErrNotFound;
      }
      params := nvs.value.(current := params.current);
      return Ok;
    }

    /** ph_screen_init: load; when that fails, save the defaults. */
    method Init(loadOpenOk: bool, saveOpenOk: bool, commit: Err) returns (err: Err)
      modifies this
      ensures err == Ok
      ensures loadOpenOk && old(nvs).Some? ==> params == Adopted(old(nvs), old(params)) && nvs == old(nvs)
      ensures !(loadOpenOk && old(nvs).Some?) ==>
        params == old(params) && nvs == (if saveOpenOk && commit == Ok then Some(params) else old(nvs))
      ensures step == old(step) && loaded == old(loaded)
      ensures hasCloseCallback == old(hasCloseCallback) && closes == old(closes)
    {
      var loadErr := Load(loadOpenOk);
      if loadErr != Ok {
        var _ := Save(saveOpenOk, commit);
      }
      return Ok;
    }

    /** ph_get_params; a NULL destination is ESP_ERR_INVALID_ARG. */
    method GetParams(hasDestination: bool) returns (err: Err, p: Params)
      ensures hasDestination <==> err == Ok
      ensures hasDestination ==> p == params
    {
      if !hasDestination {
        return ErrInvalidArg, Defaults;
      }
      return Ok, params;
    }

    /** ph_set_params: everything is replaced except the current reading, then saved. */
    method SetParams(p: Option<Params>, openOk: bool, commit: Err) returns (err: Err)
      modifies this
      ensures p.None? ==> err == ErrInvalidArg && params == old(params) && nvs == old(nvs)
      ensures p.Some? ==> params == p.value.(current := old(params).current)
      ensures p.Some? && !openOk ==> err != Ok && nvs == old(nvs)
      ensures p.Some? && openOk ==> err == commit && nvs == (if commit == Ok then Some(params) else old(nvs))
      ensures step == old(step) && loaded == old(loaded)
      ensures hasCloseCallback == old(hasCloseCallback) && closes == old(closes)
    {
      if p.None? {
        return ErrInvalidArg;
      }
      var current := params.current;
      params := p.value.(current := current);
      err := Save(openOk, commit);
    }

    /** ph_update_current_value; the labels it refreshes are not modelled. */
    method UpdateCurrentValue(v: real) returns (err: Err)
      modifies this
      ensures err == Ok && params == old(params).(current := v)
      ensures nvs == old(nvs) && step == old(step) && loaded == old(loaded)
      ensures hasCloseCallback == old(hasCloseCallback) && closes == old(closes)
    {
      params := params.(current := v);
      return Ok;
    }

    /** ph_calibration_start. */
    method CalibrationStart() returns (err: Err)
      modifies this
      ensures err == Ok && step == 0
      ensures params == old(params) && nvs == old(nvs) && loaded == old(loaded)
      ensures hasCloseCallback == old(hasCloseCallback) && closes == old(closes)
    {
      step := 0;
      return Ok;
    }

    /** ph_calibration_set_point: point k takes the reference and the current reading. */
    method SetPoint(k: nat, ref: real) returns (err: Err)
      modifies this
      ensures !(1 <= k <= 3) ==> err == ErrInvalidArg && params == old(params)
      ensures 1 <= k <= 3 ==> err == Ok && params == WithPoint(old(params), k, ref, old(params).current)
      ensures nvs == old(nvs) && step == old(step) && loaded == old(loaded)
      ensures hasCloseCallback == old(hasCloseCallback) && closes == old(closes)
    {
      if k < 1 || k > 3 {
        return ErrInvalidArg;
      }
      params := WithPoint(params, k, ref, params.current);
      return Ok;
    }

    /** ph_calibration_finish: only from step 3 on is the calibration valid, and then it is saved. */
    method Finish(openOk: bool, commit: Err) returns (err: Err)
      modifies this
      ensures step < 3 ==> err == ErrInvalidState && params == old(params) && nvs == old(nvs)
      ensures step >= 3 ==> params == old(params).(calibrationValid := true)
      ensures step >= 3 && !openOk ==> err != Ok && nvs == old(nvs)
      ensures step >= 3 && openOk ==> err == commit && nvs == (if commit == Ok then Some(params) else old(nvs))
      ensures step == old(step) && loaded == old(loaded)
      ensures hasCloseCallback == old(hasCloseCallback) && closes == old(closes)
    {
      if step >= 3 {
        params := params.(calibrationValid := true);
        err := Save(openOk, commit);
        return;
      }
      return ErrInvalidState;
    }

    /** ph_calibration_cancel. */
    method Cancel() returns (err: Err)
      modifies this
      ensures err == Ok && step == 0
      ensures params == old(params) && nvs == old(nvs) && loaded == old(loaded)
      ensures hasCloseCallback == old(hasCloseCallback) && closes == old(closes)
    {
      step := 0;
      return Ok;
    }

    method ShowDetail() returns (err: Err)
      modifies this
      ensures err == Ok && loaded == Detail
      ensures params == old(params) && nvs == old(nvs) && step == old(step)
      ensures hasCloseCallback == old(hasCloseCallback) && closes == old(closes)
    {
      loaded := Detail;
      return Ok;
    }

    method ShowSettings() returns (err: Err)
      modifies this
      ensures err == Ok && loaded == Settings
      ensures params == old(params) && nvs == old(nvs) && step == old(step)
      ensures hasCloseCallback == old(hasCloseCallback) && closes == old(closes)
    {
      loaded := Settings;
      return Ok;
    }

    /** ph_show_calibration_screen: every visit starts again at step 1. */
    method ShowCalibration() returns (err: Err)
      modifies this
      ensures err == Ok && loaded == Calibration && step == 1
      ensures params == old(params) && nvs == old(nvs)
      ensures hasCloseCallback == old(hasCloseCallback) && closes == old(closes)
    {
      step := 1;
      loaded := Calibration;
      return Ok;
    }

    /** ph_close_screen: the close callback runs when one is set. */
    method Close() returns (err: Err)
      modifies this
      ensures err == Ok && closes == old(closes) + (if hasCloseCallback then 1 else 0)
      ensures params == old(params) && nvs == old(nvs) && step == old(step) && loaded == old(loaded)
      ensures hasCloseCallback == old(hasCloseCallback)
    {
      if hasCloseCallback {
        closes := closes + 1;
      }
      return Ok;
    }

    method SetCloseCallback(present: bool)
      modifies this
      ensures hasCloseCallback == present
      ensures params == old(params) && nvs == old(nvs) && step == old(step) && loaded == old(loaded)
      ensures closes == old(closes)
    {
      hasCloseCallback := present;
    }

    /** btn_back_event_cb. */
    method BackButton(e: ButtonEvent)
      modifies this
      ensures closes == old(closes) + (if Activates(e) && hasCloseCallback then 1 else 0)
      ensures params == old(params) && nvs == old(nvs) && step == old(step) && loaded == old(loaded)
      ensures hasCloseCallback == old(hasCloseCallback)
    {
      if Activates(e) {
        var _ := Close();
      }
    }

    /** btn_settings_event_cb. */
    method SettingsButton(e: ButtonEvent)
      modifies this
      ensures loaded == (if Activates(e) then Settings else old(loaded))
      ensures params == old(params) && nvs == old(nvs) && step == old(step)
      ensures hasCloseCallback == old(hasCloseCallback) && closes == old(closes)
    {
      if Activates(e) {
        var _ := ShowSettings();
      }
    }

    /** btn_calibration_event_cb. */
    method CalibrationButton(e: ButtonEvent)
      modifies this
      ensures Activates(e) ==> loaded == Calibration && step == 1
      ensures !Activates(e) ==> loaded == old(loaded) && step == old(step)
      ensures params == old(params) && nvs == old(nvs)
      ensures hasCloseCallback == old(hasCloseCallback) && closes == old(closes)
    {
      if Activates(e) {
        var _ := ShowCalibration();
      }
    }

    /** btn_save_settings_event_cb: save, then back to the detail screen. */
    method SaveSettingsButton(e: ButtonEvent, openOk: bool, commit: Err)
      modifies this
      ensures Activates(e) ==> loaded == Detail && nvs == (if openOk && commit == Ok then Some(params) else old(nvs))
      ensures !Activates(e) ==> loaded == old(loaded) && nvs == old(nvs)
      ensures params == old(params) && step == old(step)
      ensures hasCloseCallback == old(hasCloseCallback) && closes == old(closes)
    {
      if Activates(e) {
        var _ := Save(openOk, commit);
        var _ := ShowDetail();
      }
    }

    /**
     * btn_cal_next_event_cb: record the step's buffer, advance, and once
     * past the third point finish the calibration and show the detail screen.
     */
    method NextButton(e: ButtonEvent, openOk: bool, commit: Err)
      requires Valid()
      modifies this
      ensures Valid()
      ensures !Activates(e) ==> params == old(params) && step == old(step) && nvs == old(nvs) && loaded == old(loaded)
      ensures Activates(e) ==> step == NextStep(old(step))
      ensures Activates(e) && step <= 3 ==> params == Recorded(old(params), old(step)) && nvs == old(nvs) && loaded == old(loaded)
      ensures Activates(e) && step > 3 ==>
        && params == Recorded(old(params), old(step)).(calibrationValid := true)
        && nvs == (if openOk && commit == Ok then Some(params) else old(nvs))
        && loaded == Detail
      ensures hasCloseCallback == old(hasCloseCallback) && closes == old(closes)
    {
      if !Activates(e) {
        return;
      }
      var _ := SetPoint(step, BufferFor(step));
      step := NextStep(step);
      if step > 3 {
        var _ := Finish(openOk, commit);
        var _ := ShowDetail();
      }
    }
  }

  /** A load right after a successful save leaves the parameters as they were. */
  lemma SaveThenLoadChangesNothing(p: Params)
    ensures Adopted(Some(p), p) == p
  {
  }
}
