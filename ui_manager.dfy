/**
 * components/lvgl_ui/ui_manager.c: a screen table of three kinds (main,
 * sensor detail, sensor settings) by six sensors, each entry with
 * is_initialized and is_visible flags, a focused sensor, and a copy of each
 * sensor's UI record.  LVGL objects are reduced to those flags, the status
 * label of each main-screen card and the points appended to each detail chart.
 */
module UiManager {

  import opened Wrappers
  import opened Esp
  import opened LvEvents
  import opened SensorHistory
  import U = LvglUi

  const KindMain := 0
  const KindDetail := 1
  const KindSettings := 2
  const KindCount := 3

  const U32 := 0x1_0000_0000

  /** The UI part of sensor_data_t that ui_manager keeps per sensor. */
  datatype Reading = Reading(current: real, target: real, minValue: real, maxValue: real,
                             alarmEnabled: bool, alarmLow: real, alarmHigh: real)

  /** sensor_metadata: name and unit; "Unknown" and "" for anything but the six sensors. */
  function SensorName(t: nat): (n: string)
    ensures t < SensorCount ==> n == ["pH", "EC", "Temperature", "Humidity", "Light", "CO2"][t]
    ensures t >= SensorCount ==> n == "Unknown"
  {
    if t < SensorCount then ["pH", "EC", "Temperature", "Humidity", "Light", "CO2"][t] else "Unknown"
  }

  function SensorUnit(t: nat): (u: string)
    ensures t < SensorCount ==> u == ["", "mS/cm", "°C", "%", "lux", "ppm"][t]
    ensures t >= SensorCount ==> u == ""
  {
    if t < SensorCount then ["", "mS/cm", "°C", "%", "lux", "ppm"][t] else ""
  }

  /** The fallback name is never a sensor's own, so an unknown sensor is recognisable by name. */
  lemma NamesIdentifySensors(a: nat, b: nat)
    requires a < SensorCount
    ensures SensorName(a) != "Unknown"
    ensures b < SensorCount && a != b ==> SensorName(a) != SensorName(b)
  {
  }

  /** init_sensor_data: the record each sensor starts with. */
  function Default(t: nat): (r: Reading)
    requires t < SensorCount
    ensures r.current == 0.0 && r.alarmEnabled
    ensures r.minValue < r.target < r.maxValue && r.minValue <= r.alarmLow < r.alarmHigh <= r.maxValue
  {
    [Reading(0.0, 6.8, 4.0, 9.0, true, 6.0, 7.5),
     Reading(0.0, 1.5, 0.0, 3.0, true, 0.8, 2.0),
     Reading(0.0, 24.0, 15.0, 35.0, true, 18.0, 30.0),
     Reading(0.0, 70.0, 20.0, 100.0, true, 45.0, 75.0),
     Reading(0.0, 500.0, 0.0, 2500.0, true, 400.0, 1500.0),
     Reading(0.0, 450.0, 0.0, 2000.0, true, 0.0, 800.0)][t]
  }

  /** The status of a card: outside the alarm window is Critical, within 10% of either edge is Warning. */
  function Classify(r: Reading): (b: U.Badge)
    ensures !r.alarmEnabled ==> b == U.Normal
    ensures b == U.Critical <==> r.alarmEnabled && (r.current < r.alarmLow || r.current > r.alarmHigh)
    ensures b == U.Warning <==> r.alarmEnabled && r.alarmLow <= r.current <= r.alarmHigh
                                && (r.current < r.alarmLow * 1.1 || r.current > r.alarmHigh * 0.9)
  {
    if !r.alarmEnabled then U.Normal
    else if r.current < r.alarmLow || r.current > r.alarmHigh then U.Critical
    else if r.current < r.alarmLow * 1.1 || r.current > r.alarmHigh * 0.9 then U.Warning
    else U.Normal
  }

  /** With non-negative thresholds, Normal is exactly the inner window [1.1 low, 0.9 high]. */
  lemma NormalIsInnerWindow(r: Reading)
    requires r.alarmEnabled && r.alarmLow >= 0.0
    ensures Classify(r) == U.Normal <==> r.alarmLow * 1.1 <= r.current <= r.alarmHigh * 0.9
  {
  }

  /** The pH card shows its own default target as a warning: 6.8 lies above 0.9 times the 7.5 alarm. */
  lemma PhTargetIsWarning()
    ensures Classify(Default(0).(current := Default(0).target)) == U.Warning
  {
  }

  /** (int32_t)(value * 100): truncation towards zero. */
  function ChartPoint(v: real): (p: int)
    ensures v >= 0.0 ==> p == (v * 100.0).Floor
    ensures v < 0.0 ==> p == -((-v * 100.0).Floor)
  {
    if v >= 0.0 then (v * 100.0).Floor else -((-v * 100.0).Floor)
  }

  /**
   * The rotation step of ui_handle_encoder_event as written: current_focus is
   * an unsigned enum, so current_focus + diff + SENSOR_COUNT is taken modulo
   * 2^32 before % SENSOR_COUNT.
   */
  function FocusAfterAsWritten(f: nat, diff: int): (r: nat)
    requires f < SensorCount && -0x8000_0000 <= diff < 0x8000_0000
    ensures r < SensorCount
  {
    ((f + diff + SensorCount) % U32) % SensorCount
  }

  /** A step of more than six positions back, from the first sensor, lands on the wrong sensor. */
  lemma LongBackStepMisses()
    ensures FocusAfterAsWritten(0, -7) == 3
    ensures FocusAfterAsWritten(0, -7) != FocusAfter(0, -7)
  {
  }

  /** The rotation step: diff positions round the six sensors, in either direction. */
  function FocusAfter(f: nat, diff: int): (r: nat)
    requires f < SensorCount
    ensures r < SensorCount
    ensures (r - f - diff) % SensorCount == 0
  {
    (f + diff) % SensorCount
  }

  /** For the steps of one encoder detent the two agree. */
  lemma ShortStepsAgree(f: nat, diff: int)
    requires f < SensorCount && -SensorCount <= diff <= SensorCount
    ensures FocusAfterAsWritten(f, diff) == FocusAfter(f, diff)
  {
    var x := f + diff + SensorCount;
    assert 0 <= x < U32;
    assert x % U32 == x;
    assert x % SensorCount == (f + diff) % SensorCount;
  }

  /** Stepping forward and back by the same amount returns to the same sensor. */
  lemma FocusStepReturns(f: nat, diff: int)
    requires f < SensorCount
    ensures FocusAfter(FocusAfter(f, diff), -diff) == f
  {
    var g := FocusAfter(f, diff);
    assert (g - f - diff) % SensorCount == 0;
    var k := (g - f - diff) / SensorCount;
    assert g - diff == f + SensorCount * k;
    ModMultiple(f, k);
  }

  lemma ModMultiple(f: nat, k: int)
    requires f < SensorCount
    ensures (f + SensorCount * k) % SensorCount == f
  {
  }

  class Manager {
    var initialized: bool
    var focus: nat
    var data: seq<Reading>
    /** The status label of each main-screen card. */
    var status: seq<U.Badge>
    /** The points appended to each detail screen's chart. */
    var chart: seq<seq<int>>
    /** screens[kind][sensor].is_initialized and .is_visible. */
    const created: array2<bool>
    const visible: array2<bool>

    predicate Valid()
      reads this, created, visible
    {
      && created.Length0 == KindCount && created.Length1 == SensorCount
      && visible.Length0 == KindCount && visible.Length1 == SensorCount
      && created != visible
      && (initialized ==> created[KindMain, 0])
      && focus < SensorCount && |data| == SensorCount && |status| == SensorCount && |chart| == SensorCount
      && (forall k, t :: 0 <= k < KindCount && 0 <= t < SensorCount && visible[k, t] ==> created[k, t])
    }

    /** Exactly the screen (k, t) is visible. */
    predicate OnlyVisible(k: nat, t: nat)
      requires Valid()
      reads this, created, visible
    {
      forall a, b :: 0 <= a < KindCount && 0 <= b < SensorCount ==> (visible[a, b] <==> a == k && b == t)
    }

    constructor()
      ensures Valid() && fresh(created) && fresh(visible)
      ensures !initialized && focus == 0
      ensures forall k, t :: 0 <= k < KindCount && 0 <= t < SensorCount ==> !created[k, t] && !visible[k, t]
    {
      initialized := false;
      focus := 0;
      data := seq(SensorCount, _ => Reading(0.0, 0.0, 0.0, 0.0, false, 0.0, 0.0));
      status := seq(SensorCount, _ => U.Normal);
      chart := seq(SensorCount, _ => []);
      created := new bool[KindCount, SensorCount]((_, _) => false);
      visible := new bool[KindCount, SensorCount]((_, _) => false);
    }

    /** ui_manager_init: the sensor records, a cleared screen table and the visible main screen. */
    method Init() returns (err: Err)
      requires Valid()
      modifies this, created, visible
      ensures Valid() && err == Ok && initialized
      ensures old(initialized) ==> data == old(data) && focus == old(focus)
      ensures !old(initialized) ==> data == seq(SensorCount, (t: int) requires 0 <= t < SensorCount => Default(t))
      ensures !old(initialized) ==> OnlyVisible(KindMain, 0)
      ensures !old(initialized) ==> forall k, t :: 0 <= k < KindCount && 0 <= t < SensorCount ==> (created[k, t] <==> k == KindMain && t == 0)
    {
      if initialized {
        return Ok;
      }
      data := seq(SensorCount, (t: int) requires 0 <= t < SensorCount => Default(t));
      Clear();
      created[KindMain, 0] := true;
      visible[KindMain, 0] := true;
      initialized := true;
      return Ok;
    }

    /** The memset of the screen table, done before the manager counts as initialised. */
    method Clear()
      requires Valid() && !initialized
      modifies created, visible
      ensures Valid()
      ensures forall k, t :: 0 <= k < KindCount && 0 <= t < SensorCount ==> !created[k, t] && !visible[k, t]
    {
      var k := 0;
      while k < KindCount
        invariant 0 <= k <= KindCount && Valid()
        invariant forall a, b :: 0 <= a < k && 0 <= b < SensorCount ==> !created[a, b] && !visible[a, b]
      {
        var t := 0;
        while t < SensorCount
          invariant 0 <= t <= SensorCount && Valid()
          invariant forall a, b :: 0 <= a < k && 0 <= b < SensorCount ==> !created[a, b] && !visible[a, b]
          invariant forall b :: 0 <= b < t ==> !created[k, b] && !visible[k, b]
        {
          visible[k, t] := false;
          created[k, t] := false;
          t := t + 1;
        }
        k := k + 1;
      }
    }

    /** The first loop of ui_show_screen: hide every created screen that is visible. */
    method HideAll()
      requires Valid()
      modifies visible
      ensures Valid()
      ensures forall k, t :: 0 <= k < KindCount && 0 <= t < SensorCount ==> !visible[k, t]
    {
      var k := 0;
      while k < KindCount
        invariant 0 <= k <= KindCount && Valid()
        invariant forall a, b :: 0 <= a < k && 0 <= b < SensorCount ==> !visible[a, b]
      {
        var t := 0;
        while t < SensorCount
          invariant 0 <= t <= SensorCount && Valid()
          invariant forall a, b :: 0 <= a < k && 0 <= b < SensorCount ==> !visible[a, b]
          invariant forall b :: 0 <= b < t ==> !visible[k, b]
        {
          if created[k, t] && visible[k, t] {
            visible[k, t] := false;
          }
          t := t + 1;
        }
        k := k + 1;
      }
    }

    /** update_sensor_display: the card's status while the main screen is visible, a chart point while its detail screen is. */
    method UpdateDisplay(t: nat)
      requires Valid() && t < SensorCount
      modifies this
      ensures Valid()
      ensures status == (if visible[KindMain, 0] then old(status)[t := Classify(data[t])] else old(status))
      ensures chart == (if visible[KindDetail, t] then old(chart)[t := old(chart)[t] + [ChartPoint(data[t].current)]] else old(chart))
      ensures initialized == old(initialized) && focus == old(focus) && data == old(data)
    {
      if visible[KindMain, 0] {
        status := status[t := Classify(data[t])];
      }
      if created[KindDetail, t] && visible[KindDetail, t] {
        chart := chart[t := chart[t] + [ChartPoint(data[t].current)]];
      }
    }

    /**
     * ui_show_screen: hide everything, then show the target, creating a
     * sensor screen on first use.  A sensor out of range is refused after the
     * hiding, so it leaves no screen visible.
     */
    method ShowScreen(kind: nat, t: nat) returns (err: Err)
      requires Valid() && kind < KindCount
      modifies this, visible, created
      ensures Valid()
      ensures !old(initialized) ==> err == ErrInvalidState && unchanged(this, visible, created)
      ensures old(initialized) && kind == KindMain ==> err == Ok && OnlyVisible(KindMain, 0)
      ensures old(initialized) && kind != KindMain && t >= SensorCount ==>
        err == ErrInvalidArg && forall a, b :: 0 <= a < KindCount && 0 <= b < SensorCount ==> !visible[a, b]
      ensures old(initialized) && kind != KindMain && t < SensorCount ==>
        && err == Ok && OnlyVisible(kind, t) && created[kind, t]
        && chart == (if kind == KindDetail then old(chart)[t := old(chart)[t] + [ChartPoint(data[t].current)]] else old(chart))
      ensures forall a, b :: 0 <= a < KindCount && 0 <= b < SensorCount && old(created[a, b]) ==> created[a, b]
      ensures forall a, b :: 0 <= a < KindCount && 0 <= b < SensorCount && !(a == kind && b == t) ==> created[a, b] == old(created[a, b])
      ensures initialized == old(initialized) && focus == old(focus) && data == old(data) && status == old(status)
      ensures kind == KindMain || t >= SensorCount ==> chart == old(chart)
    {
      if !initialized {
        return ErrInvalidState;
      }
      HideAll();
      if kind == KindMain {
        visible[KindMain, 0] := true;
        return Ok;
      }
      if t >= SensorCount {
        return ErrInvalidArg;
      }
      if !created[kind, t] {
        created[kind, t] := true;
      }
      visible[kind, t] := true;
      UpdateDisplay(t);
      return Ok;
    }

    /** ui_is_screen_visible: false for anything outside the table. */
    function IsVisible(kind: nat, t: nat): (v: bool)
      requires Valid()
      reads this, created, visible
      ensures v ==> kind < KindCount && t < SensorCount && created[kind, t]
    {
      kind < KindCount && t < SensorCount && visible[kind, t]
    }

    /** ui_update_sensor_data. */
    method UpdateSensorData(t: nat, r: Reading) returns (err: Err)
      requires Valid()
      modifies this
      ensures Valid()
      ensures !old(initialized) || t >= SensorCount ==> err == ErrInvalidArg && data == old(data) && status == old(status) && chart == old(chart)
      ensures old(initialized) && t < SensorCount ==>
        && err == Ok && data == old(data)[t := r]
        && status == (if visible[KindMain, 0] then old(status)[t := Classify(r)] else old(status))
        && chart == (if visible[KindDetail, t] then old(chart)[t := old(chart)[t] + [ChartPoint(r.current)]] else old(chart))
      ensures initialized == old(initialized) && focus == old(focus)
    {
      if !initialized || t >= SensorCount {
        return ErrInvalidArg;
      }
      data := data[t := r];
      UpdateDisplay(t);
      return Ok;
    }

    /** ui_get_sensor_data. */
    method GetSensorData(t: nat) returns (err: Err, r: Option<Reading>)
      requires Valid()
      ensures !initialized || t >= SensorCount ==> err == ErrInvalidArg && r == None
      ensures initialized && t < SensorCount ==> err == Ok && r == Some(data[t])
    {
      if !initialized || t >= SensorCount {
        return ErrInvalidArg, None;
      }
      return Ok, Some(data[t]);
    }

    /** ui_set_focus: only one of the six sensors, and only once initialised. */
    method SetFocus(t: nat) returns (err: Err)
      requires Valid()
      modifies this
      ensures Valid()
      ensures initialized && t < SensorCount ==> err == Ok && focus == t
      ensures !(initialized && t < SensorCount) ==> err == ErrInvalidArg && focus == old(focus)
      ensures initialized == old(initialized) && data == old(data) && status == old(status) && chart == old(chart)
    {
      if !initialized || t >= SensorCount {
        return ErrInvalidArg;
      }
      focus := t;
      return Ok;
    }

    /**
     * ui_handle_encoder_event: on the main screen ENTER opens the focused
     * sensor's detail screen and a rotation moves the focus; elsewhere ESC
     * returns to the main screen.  The result of the screen switch is dropped.
     */
    method HandleEncoder(key: nat, diff: int) returns (err: Err)
      requires Valid()
      modifies this, visible, created
      ensures Valid()
      ensures !old(initialized) ==> err == ErrInvalidState && unchanged(this, visible, created)
      ensures old(initialized) ==> err == Ok
      ensures old(initialized) && old(visible[KindMain, 0]) && key == KeyEnter ==>
        OnlyVisible(KindDetail, old(focus)) && focus == old(focus)
      ensures old(initialized) && old(visible[KindMain, 0]) && key != KeyEnter && diff != 0 ==>
        focus == FocusAfter(old(focus), diff) && unchanged(visible, created)
      ensures old(initialized) && !old(visible[KindMain, 0]) && key == KeyEsc ==> OnlyVisible(KindMain, 0) && focus == old(focus)
      ensures old(initialized) && !old(visible[KindMain, 0]) && key != KeyEsc ==> unchanged(this, visible, created)
      ensures initialized == old(initialized) && data == old(data)
    {
      if !initialized {
        return ErrInvalidState;
      }
      if visible[KindMain, 0] {
        if key == KeyEnter {
          var _ := ShowScreen(KindDetail, focus);
        } else if diff != 0 {
          focus := FocusAfter(focus, diff);
        }
      } else if key == KeyEsc {
        var _ := ShowScreen(KindMain, 0);
      }
      return Ok;
    }

    /** back_button_event_cb: ui_show_main_screen. */
    method BackButton()
      requires Valid()
      modifies this, visible, created
      ensures Valid()
      ensures old(initialized) ==> OnlyVisible(KindMain, 0)
      ensures !old(initialized) ==> unchanged(this, visible, created)
      ensures focus == old(focus) && data == old(data)
    {
      var _ := ShowScreen(KindMain, 0);
    }

    /** sensor_card_event_cb and settings_button_event_cb: the sensor's detail or settings screen. */
    method OpenSensorScreen(kind: nat, t: nat)
      requires Valid() && (kind == KindDetail || kind == KindSettings)
      modifies this, visible, created
      ensures Valid()
      ensures old(initialized) && t < SensorCount ==> OnlyVisible(kind, t)
      ensures !old(initialized) ==> unchanged(this, visible, created)
      ensures focus == old(focus) && data == old(data)
    {
      var _ := ShowScreen(kind, t);
    }
  }
}
