/**
 * components/lvgl_ui/lvgl_ui.c: the dashboard layer that hands most screens
 * to the screen manager.  Its screen_type_t extends the one of lvgl_main
 * (0 main, 1..6 detail, 7..12 settings) with the system screens 13..25.
 * Calls into the screen manager (screen_show with a screen id) are recorded
 * as requests; actions on LVGL encoder groups are recorded in order.
 */
module LvglUi {

  import opened Wrappers
  import opened Seqs
  import opened LvEvents
  import opened SensorHistory
  import Encoder
  import SensorManager
  import M = LvglMain

  const ScreenMain := 0
  const SystemStatus := 13
  const AutoControl := 14
  const ResetConfirm := 19
  const NetworkSettings := 20
  const MobileConnect := 21
  const OtaUpdate := 22
  const Calibration := 23
  const DataExport := 24
  const About := 25
  const ScreenCount := 26

  /** The sensor cards plus the SET button of the status bar. */
  const FocusItems := 7

  /** Where the back button leads from each screen. */
  function BackTarget(s: nat): (t: Option<nat>)
    ensures s == ScreenMain ==> t == None
    ensures M.IsDetail(s) ==> t == Some(ScreenMain)
    ensures M.IsSettings(s) ==> t == Some(M.DetailOf(M.SensorOf(s)))
    ensures s == SystemStatus ==> t == Some(ScreenMain)
    ensures AutoControl <= s <= ResetConfirm ==> t == Some(SystemStatus)
    ensures s in {NetworkSettings, MobileConnect, OtaUpdate, DataExport, About} ==> t == Some(ScreenMain)
    ensures s == Calibration || s >= ScreenCount ==> t == None
  {
    if M.IsDetail(s) || s == SystemStatus || (NetworkSettings <= s <= About && s != Calibration) then Some(ScreenMain)
    else if M.IsSettings(s) then Some(s - 6)
    else if AutoControl <= s <= ResetConfirm then Some(SystemStatus)
    else None
  }

  /** Back always leads to a screen with a smaller code: towards the main screen. */
  lemma BackDescends(s: nat)
    requires BackTarget(s).Some?
    ensures BackTarget(s).value < s
  {
  }

  /** The screen reached from s by at most n presses of back is the main screen. */
  predicate ReachesMain(s: nat, n: nat)
    decreases n
  {
    s == ScreenMain || (n > 0 && BackTarget(s).Some? && ReachesMain(BackTarget(s).value, n - 1))
  }

  /** Every screen with a back button is at most two presses from the main screen. */
  lemma {:induction false} BackReachesMain(s: nat)
    requires s == ScreenMain || BackTarget(s).Some?
    ensures ReachesMain(s, 2)
  {
    if s != ScreenMain {
      var t := BackTarget(s).value;
      if t != ScreenMain {
        assert BackTarget(t) == Some(ScreenMain);
        assert ReachesMain(ScreenMain, 0);
        assert ReachesMain(t, 1);
      } else {
        assert ReachesMain(t, 1);
      }
    }
  }

  /** The screen manager ids of the six detail screens in card order. */
  function DetailId(i: nat): (id: string)
    requires i < SensorCount
  {
    ["detail_ph", "detail_ec", "detail_temp", "detail_humidity", "detail_lux", "detail_co2"][i]
  }

  /** The screen manager ids behind the system menu's six items; no id for any other item. */
  function MenuScreenId(item: nat): (id: Option<string>)
    ensures id.Some? <==> item < 6
  {
    if item < 6 then Some(["auto_control", "wifi_settings", "display_settings", "data_logger", "system_info", "reset_confirm"][item])
    else None
  }

  /** Each menu item opens a screen of its own. */
  lemma MenuIdsDistinct(a: nat, b: nat)
    requires a < 6 && b < 6 && a != b
    ensures MenuScreenId(a) != MenuScreenId(b)
  {
  }

  /** Each card opens a detail screen of its own. */
  lemma DetailIdsDistinct(a: nat, b: nat)
    requires a < SensorCount && b < SensorCount && a != b
    ensures DetailId(a) != DetailId(b)
  {
  }

  /** The distinct ids also tell the system menu's screens from the detail screens. */
  lemma MenuIdsAreNotDetailIds(item: nat, i: nat)
    requires item < 6 && i < SensorCount
    ensures MenuScreenId(item) != Some(DetailId(i))
  {
  }

  /** status_timer_cb: the hours and minutes shown for a uptime given in microseconds. */
  function Clock(us: nat): (hm: (nat, nat))
    ensures hm.0 < 24 && hm.1 < 60
  {
    var seconds := us / 1000000;
    ((seconds / 3600) % 24, (seconds / 60) % 60)
  }

  /** The clock shows the time of day: the hours and minutes account for all whole minutes of the day. */
  lemma ClockIsTimeOfDay(us: nat)
    ensures var s := us / 1000000;
      Clock(us).0 * 3600 + Clock(us).1 * 60 + s % 60 == s % 86400
  {
    var s := us / 1000000;
    HoursOfDay(s);
    MinutesOfHour(s);
    SplitDay(s % 86400);
    SecondsOfDay(s);
  }

  lemma HoursOfDay(s: nat)
    ensures (s / 3600) % 24 == (s % 86400) / 3600
  {
    var d, r := s / 86400, s % 86400;
    assert s == 3600 * (24 * d + r / 3600) + r % 3600;
  }

  lemma MinutesOfHour(s: nat)
    ensures (s / 60) % 60 == ((s % 86400) / 60) % 60
  {
    var d, r := s / 86400, s % 86400;
    assert s / 60 == 60 * (24 * d) + r / 60 by {
      assert s == 60 * (1440 * d + r / 60) + r % 60;
    }
  }

  lemma SplitDay(r: nat)
    requires r < 86400
    ensures r == 3600 * (r / 3600) + 60 * ((r / 60) % 60) + r % 60
  {
    assert r / 60 == 60 * (r / 3600) + (r / 60) % 60;
  }

  lemma SecondsOfDay(s: nat)
    ensures s % 60 == (s % 86400) % 60
  {
    assert s == 60 * (1440 * (s / 86400)) + s % 86400;
  }

  /** A SENSOR_META threshold; None for NAN, which threshold_defined rejects. */
  type Threshold = Option<real>

  function WarnLow(i: nat): Threshold
    requires i < SensorCount
  {
    [Some(6.0), Some(1.2), Some(20.0), Some(45.0), Some(400.0), None][i]
  }

  function WarnHigh(i: nat): Threshold
    requires i < SensorCount
  {
    [Some(7.0), Some(2.0), Some(28.0), Some(75.0), Some(1500.0), Some(800.0)][i]
  }

  function DangerLow(i: nat): Threshold
    requires i < SensorCount
  {
    [Some(5.5), Some(0.8), Some(15.0), Some(35.0), Some(200.0), None][i]
  }

  function DangerHigh(i: nat): Threshold
    requires i < SensorCount
  {
    [Some(7.5), Some(2.4), Some(32.0), Some(85.0), Some(2000.0), Some(1200.0)][i]
  }

  predicate Below(t: Threshold, v: real)
  {
    t.Some? && v < t.value
  }

  predicate Above(t: Threshold, v: real)
  {
    t.Some? && v > t.value
  }

  datatype Badge = Normal | Warning | Critical

  /** update_status_badge: the badge of sensor i for a reading; only defined thresholds take part. */
  function Status(i: nat, v: real): (b: Badge)
    requires i < SensorCount
    ensures b == Critical <==> Below(DangerLow(i), v) || Above(DangerHigh(i), v)
    ensures b == Warning <==> !(Below(DangerLow(i), v) || Above(DangerHigh(i), v)) && (Below(WarnLow(i), v) || Above(WarnHigh(i), v))
  {
    if Below(DangerLow(i), v) || Above(DangerHigh(i), v) then Critical
    else if Below(WarnLow(i), v) || Above(WarnHigh(i), v) then Warning
    else Normal
  }

  /** The danger band lies outside the warning band: a Normal reading is one inside every defined warning bound. */
  lemma NormalIsInsideWarningBand(i: nat, v: real)
    requires i < SensorCount
    ensures Status(i, v) == Normal <==> !Below(WarnLow(i), v) && !Above(WarnHigh(i), v)
  {
    assert DangerLow(i).Some? ==> WarnLow(i).Some? && DangerLow(i).value <= WarnLow(i).value;
    assert DangerHigh(i).Some? && WarnHigh(i).Some? && DangerHigh(i).value >= WarnHigh(i).value;
  }

  /** The CO2 card has only upper thresholds: a low reading is never flagged. */
  lemma LowCo2IsNormal(v: real)
    requires v <= 800.0
    ensures Status(5, v) == Normal
  {
  }

  /** What an encoder event did to an LVGL group. */
  datatype GroupAction = FocusNext | FocusPrev | SendEnter(toScreenGroup: bool)

  class Ui {
    var current: nat
    var card: nat
    var navigationEnabled: bool
    var detailIndex: int
    var focus: int
    var focusVisible: bool
    /** create_main_ui has run: main_screen and the card labels exist. */
    var mainUi: bool
    var detailCreated: seq<bool>
    var settingsCreated: seq<bool>
    /** The screen switch_to_screen last loaded. */
    var loaded: Option<nat>
    /** The screen ids passed to screen_show, in order. */
    var requests: seq<string>
    var actions: seq<GroupAction>
    /** The value handed to lcd_ili9341_set_encoder_diff, 0 until the first legacy rotation. */
    var legacyDiff: int
    var badges: seq<Badge>
    var lastData: SensorManager.SensorData
    var snapshotValid: bool
    const ring: History

    predicate Valid()
      reads this, ring, ring.pos
    {
      && card < SensorCount
      && |detailCreated| == SensorCount && |settingsCreated| == SensorCount && |badges| == SensorCount
      && ring.Valid()
    }

    constructor()
      ensures Valid() && fresh(ring) && fresh(ring.rows) && fresh(ring.pos) && fresh(ring.full)
      ensures current == ScreenMain && card == 0 && navigationEnabled && detailIndex == -1 && focus == -1
      ensures focusVisible && !mainUi && loaded == None && requests == [] && actions == [] && !snapshotValid
      ensures detailCreated == seq(SensorCount, _ => false) && settingsCreated == seq(SensorCount, _ => false)
      ensures forall i :: 0 <= i < SensorCount ==> ring.Series(i) == []
    {
      current, card := ScreenMain, 0;
      navigationEnabled := true;
      detailIndex, focus := -1, -1;
      focusVisible := true;
      mainUi := false;
      detailCreated := seq(SensorCount, _ => false);
      settingsCreated := seq(SensorCount, _ => false);
      loaded := None;
      requests, actions := [], [];
      legacyDiff := 0;
      badges := seq(SensorCount, _ => Normal);
      lastData := SensorManager.EmptyData;
      snapshotValid := false;
      ring := new History();
    }

    /** create_main_ui: the main screen and the six cards. */
    method CreateMainUi()
      modifies this
      ensures mainUi
      ensures current == old(current) && card == old(card) && focus == old(focus) && loaded == old(loaded)
      ensures detailIndex == old(detailIndex) && detailCreated == old(detailCreated) && settingsCreated == old(settingsCreated)
      ensures requests == old(requests) && actions == old(actions) && badges == old(badges)
      ensures navigationEnabled == old(navigationEnabled) && focusVisible == old(focusVisible) && legacyDiff == old(legacyDiff)
      ensures lastData == old(lastData) && snapshotValid == old(snapshotValid)
    {
      mainUi := true;
    }

    /**
     * show_screen: current_screen always becomes s.  Only the main screen
     * and the legacy detail and settings screens of sensors 1..5 (created
     * on demand) are loaded; every other screen belongs to the screen
     * manager.  Showing the main screen moves the focus to the selected card.
     */
    method ShowScreen(s: nat)
      requires Valid()
      modifies this
      ensures Valid()
      ensures current == s && detailIndex == M.DetailIndexAfter(old(current), s, old(detailIndex))
      ensures s == ScreenMain ==> loaded == (if mainUi then Some(s) else old(loaded)) && focus == card
      ensures 2 <= s <= 6 ==> loaded == Some(s) && detailCreated == old(detailCreated)[s - 1 := true]
      ensures 8 <= s <= 12 ==> loaded == Some(s) && settingsCreated == old(settingsCreated)[s - 7 := true]
      ensures !(2 <= s <= 6) ==> detailCreated == old(detailCreated)
      ensures !(8 <= s <= 12) ==> settingsCreated == old(settingsCreated)
      ensures !(s == ScreenMain || 2 <= s <= 6 || 8 <= s <= 12) ==> loaded == old(loaded)
      ensures s != ScreenMain ==> focus == old(focus)
      ensures card == old(card) && mainUi == old(mainUi) && requests == old(requests) && actions == old(actions)
      ensures navigationEnabled == old(navigationEnabled) && focusVisible == old(focusVisible) && legacyDiff == old(legacyDiff)
      ensures badges == old(badges) && lastData == old(lastData) && snapshotValid == old(snapshotValid)
    {
      detailIndex := M.DetailIndexAfter(current, s, detailIndex);
      current := s;
      if s == ScreenMain {
        if mainUi {
          loaded := Some(s);
        }
      } else if 2 <= s <= 6 {
        detailCreated := detailCreated[s - 1 := true];
        loaded := Some(s);
      } else if 8 <= s <= 12 {
        settingsCreated := settingsCreated[s - 7 := true];
        loaded := Some(s);
      }
      if s == ScreenMain {
        SetFocus(card);
      }
    }

    /** back_button_event_cb. */
    method BackButton()
      requires Valid()
      modifies this
      ensures Valid()
      ensures BackTarget(old(current)).Some? ==> current == BackTarget(old(current)).value
      ensures BackTarget(old(current)).None? ==> current == old(current) && loaded == old(loaded) && focus == old(focus)
      ensures M.IsDetail(old(current)) ==> detailIndex == -1
      ensures card == old(card) && requests == old(requests) && actions == old(actions)
      ensures navigationEnabled == old(navigationEnabled) && focusVisible == old(focusVisible)
    {
      var t := BackTarget(current);
      if t.Some? {
        ShowScreen(t.value);
      }
    }

    /** settings_button_event_cb: create the settings screen if needed, then show it. */
    method SettingsButton(index: nat)
      requires Valid() && index < SensorCount
      modifies this
      ensures Valid()
      ensures current == M.SettingsOf(index) && settingsCreated == old(settingsCreated)[index := true]
      ensures loaded == (if index == 0 then old(loaded) else Some(M.SettingsOf(index)))
      ensures detailIndex == M.DetailIndexAfter(old(current), M.SettingsOf(index), old(detailIndex))
      ensures card == old(card) && focus == old(focus) && requests == old(requests) && actions == old(actions)
      ensures detailCreated == old(detailCreated)
    {
      settingsCreated := settingsCreated[index := true];
      ShowScreen(M.SettingsOf(index));
    }

    /** sensor_card_event_cb: a card below six asks the screen manager for its detail screen. */
    method SensorCard(index: nat)
      modifies this
      ensures index < SensorCount ==> requests == old(requests) + [DetailId(index)]
      ensures index >= SensorCount ==> requests == old(requests)
      ensures current == old(current) && card == old(card) && focus == old(focus) && loaded == old(loaded)
      ensures actions == old(actions)
    {
      if index < SensorCount {
        requests := requests + [DetailId(index)];
      }
    }

    /** system_settings_button_event_cb. */
    method SystemSettingsButton()
      modifies this
      ensures requests == old(requests) + ["system_menu"]
      ensures current == old(current) && card == old(card) && focus == old(focus) && loaded == old(loaded)
      ensures actions == old(actions)
    {
      requests := requests + ["system_menu"];
    }

    /** system_menu_item_event_cb: a click or ENTER on item `item` opens its screen. */
    method MenuItem(e: ButtonEvent, item: nat)
      modifies this
      ensures (e == Clicked || e == Key(KeyEnter)) && item < 6 ==> requests == old(requests) + [MenuScreenId(item).value]
      ensures !((e == Clicked || e == Key(KeyEnter)) && item < 6) ==> requests == old(requests)
      ensures current == old(current) && card == old(card) && focus == old(focus) && loaded == old(loaded)
      ensures actions == old(actions)
    {
      if e.Key? && e.key != KeyEnter {
        return;
      } else if !e.Key? && e != Clicked {
        return;
      }
      var id := MenuScreenId(item);
      if id.Some? {
        requests := requests + [id.value];
      }
    }

    /** lvgl_set_focus: a card index moves both the focus and the selected card; anything else is refused. */
    method SetFocus(index: int)
      modifies this
      ensures 0 <= index < SensorCount ==> focus == index && card == index
      ensures !(0 <= index < SensorCount) ==> focus == old(focus) && card == old(card)
      ensures current == old(current) && loaded == old(loaded) && detailIndex == old(detailIndex)
      ensures detailCreated == old(detailCreated) && settingsCreated == old(settingsCreated) && mainUi == old(mainUi)
      ensures requests == old(requests) && actions == old(actions) && badges == old(badges)
      ensures navigationEnabled == old(navigationEnabled) && focusVisible == old(focusVisible) && legacyDiff == old(legacyDiff)
      ensures lastData == old(lastData) && snapshotValid == old(snapshotValid)
    {
      if index < 0 || index >= SensorCount {
        return;
      }
      focus := index;
      card := index;
    }

    /** lvgl_get_total_focus_items. */
    function TotalFocusItems(): (n: nat)
      ensures n == SensorCount + 1
    {
      FocusItems
    }

    /** lvgl_clear_focus_group. */
    method ClearFocus()
      modifies this
      ensures focus == -1
      ensures current == old(current) && card == old(card) && loaded == old(loaded) && actions == old(actions)
    {
      focus := -1;
    }

    /** focus_hide_timer_cb. */
    method HideFocus()
      modifies this
      ensures !focusVisible
      ensures current == old(current) && card == old(card) && focus == old(focus) && actions == old(actions)
    {
      focusVisible := false;
    }

    /**
     * handle_encoder_event.  `managerGroup` is whether the screen manager's
     * current screen has an encoder group, `indevGroup` whether the encoder
     * input device has one.
     */
    method HandleEncoder(e: Encoder.Event, managerGroup: bool, indevGroup: bool)
      modifies this
      ensures !old(navigationEnabled) ==> focusVisible == old(focusVisible) && actions == old(actions) && legacyDiff == old(legacyDiff)
      ensures old(navigationEnabled) ==> focusVisible
      ensures old(navigationEnabled) && managerGroup && e.RotateCw? ==> actions == old(actions) + [FocusNext] && legacyDiff == old(legacyDiff)
      ensures old(navigationEnabled) && managerGroup && e.RotateCcw? ==> actions == old(actions) + [FocusPrev] && legacyDiff == old(legacyDiff)
      ensures old(navigationEnabled) && managerGroup && e.ButtonPress? ==> actions == old(actions) + [SendEnter(true)]
      ensures old(navigationEnabled) && !managerGroup && e.RotateCw? ==> legacyDiff == 1 && actions == old(actions)
      ensures old(navigationEnabled) && !managerGroup && e.RotateCcw? ==> legacyDiff == -1 && actions == old(actions)
      ensures old(navigationEnabled) && !managerGroup && e.ButtonPress? ==>
        actions == old(actions) + (if indevGroup then [SendEnter(false)] else [])
      ensures e.ButtonLongPress? || e.ButtonRelease? ==> actions == old(actions) && legacyDiff == old(legacyDiff)
      ensures current == old(current) && card == old(card) && focus == old(focus) && loaded == old(loaded)
      ensures requests == old(requests) && navigationEnabled == old(navigationEnabled)
    {
      if !navigationEnabled {
        return;
      }
      focusVisible := true;
      if managerGroup {
        match e
        case RotateCw(_) =>
          actions := actions + [FocusNext];
          return;
        case RotateCcw(_) =>
          actions := actions + [FocusPrev];
          return;
        case ButtonPress(_) =>
          actions := actions + [SendEnter(true)];
          return;
        case _ =>
      }
      match e
      case RotateCw(_) =>
        legacyDiff := 1;
      case RotateCcw(_) =>
        legacyDiff := -1;
      case ButtonPress(_) =>
        if indevGroup {
          actions := actions + [SendEnter(false)];
        }
      case _ =>
    }

    /**
     * update_sensor_display: keep the snapshot and, for the cards that
     * exist, set each badge and record each reading in its history row.
     */
    method UpdateSensorDisplay(d: SensorManager.SensorData)
      requires Valid()
      modifies this, ring.rows, ring.pos, ring.full
      ensures Valid()
      ensures lastData == d && snapshotValid
      ensures mainUi ==> forall i :: 0 <= i < SensorCount ==> badges[i] == Status(i, SensorValue(d, i))
      ensures !mainUi ==> badges == old(badges)
      ensures forall i :: 0 <= i < SensorCount ==>
        ring.Series(i) == (if mainUi then PushBounded(old(ring.Series(i)), Scaled(i, SensorValue(d, i)), HistoryPoints)
                           else old(ring.Series(i)))
      ensures current == old(current) && card == old(card) && focus == old(focus) && loaded == old(loaded)
      ensures mainUi == old(mainUi) && requests == old(requests) && actions == old(actions)
    {
      lastData := d;
      snapshotValid := true;
      if mainUi {
        badges := seq(SensorCount, (i: int) requires 0 <= i < SensorCount => Status(i, SensorValue(d, i)));
        ring.RecordAll(d);
      }
    }
  }
}
