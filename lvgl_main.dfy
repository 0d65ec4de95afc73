/**
 * components/lvgl_main: the main dashboard of six sensor cards, one detail
 * and one settings screen per sensor, navigation with the rotary encoder,
 * and a 60-point history ring per sensor.  Screens are the screen_type_t
 * codes: 0 is the main screen, 1..6 the detail screens and 7..12 the
 * settings screens, in sensor order.  LVGL objects are reduced to whether a
 * screen has been created and which screen show_screen left unhidden.
 */
module LvglMain {

  import opened Wrappers
  import opened Seqs
  import opened LvEvents
  import Encoder
  import SensorManager
  import opened SensorHistory
  const SettingsItems := 5

  const ScreenMain := 0
  const ScreenCount := 13

  /** SCREEN_DETAIL_PH + i. */
  function DetailOf(i: nat): nat
  {
    1 + i
  }

  /** SCREEN_SETTINGS_PH + i. */
  function SettingsOf(i: nat): nat
  {
    7 + i
  }

  predicate IsDetail(s: nat)
  {
    1 <= s <= 6
  }

  predicate IsSettings(s: nat)
  {
    7 <= s <= 12
  }

  /** The sensor a detail or settings screen belongs to. */
  function SensorOf(s: nat): (i: nat)
    requires IsDetail(s) || IsSettings(s)
    ensures i < SensorCount
    ensures IsDetail(s) ==> DetailOf(i) == s
    ensures IsSettings(s) ==> SettingsOf(i) == s
  {
    if IsDetail(s) then s - 1 else s - 7
  }

  /** The selection after one step clockwise or counter-clockwise round a ring of n entries. */
  function Turned(i: nat, n: nat, clockwise: bool): (r: nat)
    requires i < n
    ensures r < n
    ensures clockwise ==> (r == i + 1 || (r == 0 && i == n - 1))
    ensures !clockwise ==> (r + 1 == i || (r == n - 1 && i == 0))
  {
    if clockwise then (if i + 1 == n then 0 else i + 1)
    else (if i == 0 then n - 1 else i - 1)
  }

  /** The step is the source's (i + 1) % n and (i - 1 + n) % n. */
  lemma TurnedIsModular(i: nat, n: nat)
    requires i < n
    ensures Turned(i, n, true) == (i + 1) % n
    ensures Turned(i, n, false) == (i - 1 + n) % n
  {
    ModSmall(i + 1, n);
    ModSmall(i - 1 + n, n);
  }

  /** 0 <= x < 2n: x % n is x or x - n. */
  lemma ModSmall(x: int, n: nat)
    requires 0 <= x < 2 * n
    ensures x % n == (if x < n then x else x - n)
  {
    var q, r := x / n, x % n;
    assert x == n * q + r;
    if x < n {
      if q > 0 {
        assert false;
      }
    } else {
      if q < 1 {
        assert false;
      } else if q > 1 {
        assert false;
      }
    }
  }

  /** A turn one way and then the other selects the card it started on. */
  lemma TurnBackRestores(i: nat, n: nat, clockwise: bool)
    requires i < n
    ensures Turned(Turned(i, n, clockwise), n, !clockwise) == i
  {
  }

  /** Where the back button and a long press lead: nowhere from main, main from a detail screen, the detail screen from its settings. */
  function BackTarget(s: nat): (t: Option<nat>)
    ensures t.Some? <==> IsDetail(s) || IsSettings(s)
    ensures IsDetail(s) ==> t == Some(ScreenMain)
    ensures IsSettings(s) ==> t == Some(DetailOf(SensorOf(s)))
  {
    if IsDetail(s) then Some(ScreenMain)
    else if IsSettings(s) then Some(DetailOf(s - 7))
    else None
  }

  /** Where a button press leads: the selected card's detail from main, the settings of a detail screen's sensor. */
  function PressTarget(s: nat, card: nat): (t: Option<nat>)
    requires card < SensorCount
    ensures t.Some? <==> s == ScreenMain || IsDetail(s)
    ensures s == ScreenMain ==> t == Some(DetailOf(card))
    ensures IsDetail(s) ==> t == Some(SettingsOf(SensorOf(s)))
  {
    if s == ScreenMain then Some(DetailOf(card))
    else if IsDetail(s) then Some(SettingsOf(s - 1))
    else None
  }

  /** Going forward with a press and back with a long press returns to the screen one started from. */
  lemma BackUndoesPress(s: nat, card: nat)
    requires card < SensorCount && PressTarget(s, card).Some?
    ensures BackTarget(PressTarget(s, card).value) == Some(s)
  {
  }

  /** The detail index after leaving `from` for `to`: cleared only when a detail screen gives way to a non-detail one. */
  function DetailIndexAfter(from: nat, to: nat, index: int): (r: int)
    ensures IsDetail(from) && !IsDetail(to) ==> r == -1
    ensures !(IsDetail(from) && !IsDetail(to)) ==> r == index
  {
    if IsDetail(from) && !IsDetail(to) then -1 else index
  }

  class Dashboard {
    /** current_screen. */
    var current: nat
    /** selected_card_index and selected_settings_item. */
    var card: nat
    var item: nat
    var navigationEnabled: bool
    /** detail_current_index. */
    var detailIndex: int
    /** current_focus_index. */
    var focus: int
    /** Whether detail_screens[i].screen and settings_screens[i].screen exist. */
    var detailCreated: seq<bool>
    var settingsCreated: seq<bool>
    /** The one screen show_screen left without LV_OBJ_FLAG_HIDDEN, if any. */
    var unhidden: Option<nat>
    /** value_labels exist once the main UI is built. */
    var labelsCreated: bool
    var lastData: SensorManager.SensorData
    var snapshotValid: bool
    /** sensor_history, sensor_history_pos and sensor_history_full. */
    const ring: History

    predicate Valid()
      reads this, ring, ring.pos
    {
      && current < ScreenCount && card < SensorCount && item < SettingsItems
      && |detailCreated| == SensorCount && |settingsCreated| == SensorCount
      && ring.Valid()
    }

    constructor()
      ensures Valid() && fresh(ring) && fresh(ring.rows) && fresh(ring.pos) && fresh(ring.full)
      ensures current == ScreenMain && card == 0 && item == 0 && navigationEnabled
      ensures detailIndex == -1 && focus == -1 && unhidden == None && !labelsCreated && !snapshotValid
      ensures detailCreated == seq(SensorCount, _ => false) && settingsCreated == seq(SensorCount, _ => false)
      ensures forall i :: 0 <= i < SensorCount ==> ring.Series(i) == []
    {
      current, card, item := ScreenMain, 0, 0;
      navigationEnabled := true;
      detailIndex, focus := -1, -1;
      detailCreated := seq(SensorCount, _ => false);
      settingsCreated := seq(SensorCount, _ => false);
      unhidden := None;
      labelsCreated := false;
      lastData := SensorManager.EmptyData;
      snapshotValid := false;
      ring := new History();
    }

    /** show_screen: hide every screen, unhide the target if it exists, and make it current. */
    method ShowScreen(s: nat)
      requires Valid() && s < ScreenCount
      modifies this
      ensures Valid()
      ensures current == s && detailIndex == DetailIndexAfter(old(current), s, old(detailIndex))
      ensures unhidden == (if s == ScreenMain then Some(s)
                           else if IsDetail(s) && detailCreated[SensorOf(s)] then Some(s)
                           else if IsSettings(s) && settingsCreated[SensorOf(s)] then Some(s)
                           else None)
      ensures card == old(card) && item == old(item) && navigationEnabled == old(navigationEnabled)
      ensures focus == old(focus) && detailCreated == old(detailCreated) && settingsCreated == old(settingsCreated)
      ensures labelsCreated == old(labelsCreated) && lastData == old(lastData) && snapshotValid == old(snapshotValid)
    {
      detailIndex := DetailIndexAfter(current, s, detailIndex);
      current := s;
      if s == ScreenMain {
        unhidden := Some(s);
      } else if IsDetail(s) && detailCreated[SensorOf(s)] {
        unhidden := Some(s);
      } else if IsSettings(s) && settingsCreated[SensorOf(s)] {
        unhidden := Some(s);
      } else {
        unhidden := None;
      }
    }

    /** Show the detail screen of sensor i, creating it first when needed. */
    method OpenDetail(i: nat)
      requires Valid() && i < SensorCount
      modifies this
      ensures Valid()
      ensures current == DetailOf(i) && unhidden == Some(DetailOf(i)) && detailCreated == old(detailCreated)[i := true]
      ensures detailIndex == old(detailIndex)
      ensures card == old(card) && item == old(item) && navigationEnabled == old(navigationEnabled)
      ensures focus == old(focus) && settingsCreated == old(settingsCreated)
      ensures labelsCreated == old(labelsCreated) && lastData == old(lastData) && snapshotValid == old(snapshotValid)
    {
      detailCreated := detailCreated[i := true];
      ShowScreen(DetailOf(i));
    }

    /** Show the settings screen of sensor i, creating it first when needed. */
    method OpenSettings(i: nat)
      requires Valid() && i < SensorCount
      modifies this
      ensures Valid()
      ensures current == SettingsOf(i) && unhidden == Some(SettingsOf(i)) && settingsCreated == old(settingsCreated)[i := true]
      ensures detailIndex == DetailIndexAfter(old(current), SettingsOf(i), old(detailIndex))
      ensures card == old(card) && item == old(item) && navigationEnabled == old(navigationEnabled)
      ensures focus == old(focus) && detailCreated == old(detailCreated)
      ensures labelsCreated == old(labelsCreated) && lastData == old(lastData) && snapshotValid == old(snapshotValid)
    {
      settingsCreated := settingsCreated[i := true];
      ShowScreen(SettingsOf(i));
    }

    /** sensor_card_event_cb for card `index`. */
    method SensorCard(index: nat)
      requires Valid() && index < SensorCount
      modifies this
      ensures Valid()
      ensures current == DetailOf(index) && unhidden == Some(DetailOf(index))
      ensures detailCreated == old(detailCreated)[index := true] && detailIndex == old(detailIndex)
      ensures card == old(card) && item == old(item) && focus == old(focus) && settingsCreated == old(settingsCreated)
      ensures navigationEnabled == old(navigationEnabled)
      ensures labelsCreated == old(labelsCreated) && lastData == old(lastData) && snapshotValid == old(snapshotValid)
    {
      OpenDetail(index);
    }

    /** settings_button_event_cb for sensor `index`. */
    method SettingsButton(index: nat)
      requires Valid() && index < SensorCount
      modifies this
      ensures Valid()
      ensures current == SettingsOf(index) && unhidden == Some(SettingsOf(index))
      ensures settingsCreated == old(settingsCreated)[index := true]
      ensures detailIndex == DetailIndexAfter(old(current), SettingsOf(index), old(detailIndex))
      ensures card == old(card) && item == old(item) && focus == old(focus) && detailCreated == old(detailCreated)
      ensures navigationEnabled == old(navigationEnabled)
      ensures labelsCreated == old(labelsCreated) && lastData == old(lastData) && snapshotValid == old(snapshotValid)
    {
      OpenSettings(index);
    }

    /** back_button_event_cb: show the back target of the current screen, if it has one. */
    method BackButton()
      requires Valid()
      modifies this
      ensures Valid()
      ensures BackTarget(old(current)).None? ==> current == old(current) && unhidden == old(unhidden) && detailIndex == old(detailIndex)
      ensures BackTarget(old(current)).Some? ==> current == BackTarget(old(current)).value
      ensures IsDetail(old(current)) ==> unhidden == Some(ScreenMain) && detailIndex == -1
      ensures IsSettings(old(current)) ==> detailIndex == old(detailIndex)
      ensures card == old(card) && item == old(item) && focus == old(focus)
      ensures detailCreated == old(detailCreated) && settingsCreated == old(settingsCreated)
      ensures navigationEnabled == old(navigationEnabled)
      ensures labelsCreated == old(labelsCreated) && lastData == old(lastData) && snapshotValid == old(snapshotValid)
    {
      var t := BackTarget(current);
      if t.Some? {
        ShowScreen(t.value);
      }
    }

    /** handle_encoder_event. */
    method HandleEncoder(e: Encoder.Event)
      requires Valid()
      modifies this
      ensures Valid()
      ensures !navigationEnabled ==>
        && current == old(current) && card == old(card) && item == old(item)
        && unhidden == old(unhidden) && detailIndex == old(detailIndex)
        && detailCreated == old(detailCreated) && settingsCreated == old(settingsCreated)
      ensures navigationEnabled && (e.RotateCw? || e.RotateCcw?) ==>
        && card == (if old(current) == ScreenMain then Turned(old(card), SensorCount, e.RotateCw?) else old(card))
        && item == (if IsSettings(old(current)) then Turned(old(item), SettingsItems, e.RotateCw?) else old(item))
        && current == old(current) && unhidden == old(unhidden) && detailIndex == old(detailIndex)
      ensures navigationEnabled && e.ButtonPress? ==>
        && card == old(card) && item == old(item)
        && (PressTarget(old(current), old(card)).Some? ==>
              current == PressTarget(old(current), old(card)).value && unhidden == Some(current))
        && (old(current) == ScreenMain ==> detailCreated == old(detailCreated)[old(card) := true])
        && (IsDetail(old(current)) ==> settingsCreated == old(settingsCreated)[SensorOf(old(current)) := true] && detailIndex == -1)
        && (PressTarget(old(current), old(card)).None? ==> current == old(current) && unhidden == old(unhidden))
      ensures navigationEnabled && e.ButtonLongPress? ==>
        && card == old(card) && item == old(item)
        && (BackTarget(old(current)).Some? ==> current == BackTarget(old(current)).value)
        && (BackTarget(old(current)).None? ==> current == old(current) && unhidden == old(unhidden))
        && detailCreated == old(detailCreated) && settingsCreated == old(settingsCreated)
      ensures navigationEnabled && e.ButtonRelease? ==>
        current == old(current) && card == old(card) && item == old(item) && unhidden == old(unhidden)
      ensures focus == old(focus) && navigationEnabled == old(navigationEnabled)
      ensures labelsCreated == old(labelsCreated) && lastData == old(lastData) && snapshotValid == old(snapshotValid)
    {
      if !navigationEnabled {
        return;
      }
      match e
      case RotateCw(_) =>
        if current == ScreenMain {
          card := Turned(card, SensorCount, true);
        } else if IsSettings(current) {
          item := Turned(item, SettingsItems, true);
        }
      case RotateCcw(_) =>
        if current == ScreenMain {
          card := Turned(card, SensorCount, false);
        } else if IsSettings(current) {
          item := Turned(item, SettingsItems, false);
        }
      case ButtonPress(_) =>
        if current == ScreenMain {
          OpenDetail(card);
        } else if IsDetail(current) {
          OpenSettings(SensorOf(current));
        }
      case ButtonLongPress(_) =>
        var t := BackTarget(current);
        if t.Some? {
          ShowScreen(t.value);
        }
      case ButtonRelease =>
    }

    /**
     * encoder_event_cb: ENTER and ESC switch with switch_to_screen to the
     * screens of the per-sensor screen components (`targetExists` is
     * whether the target object exists), and a value change turns by the
     * sign of `diff` (last_encoder_diff).
     */
    method EncoderKey(e: ButtonEvent, valueChanged: bool, diff: int, targetExists: bool)
      requires Valid()
      modifies this
      ensures Valid()
      ensures e == Key(KeyEnter) && targetExists && PressTarget(old(current), old(card)).Some? ==>
        && current == PressTarget(old(current), old(card)).value
        && detailIndex == DetailIndexAfter(old(current), current, old(detailIndex))
      ensures e == Key(KeyEsc) && targetExists && BackTarget(old(current)).Some? ==>
        && current == BackTarget(old(current)).value
        && detailIndex == DetailIndexAfter(old(current), current, old(detailIndex))
      ensures !((e == Key(KeyEnter) && PressTarget(old(current), old(card)).Some?)
                || (e == Key(KeyEsc) && BackTarget(old(current)).Some?)) || !targetExists ==>
        current == old(current) && detailIndex == old(detailIndex)
      ensures valueChanged && diff != 0 ==>
        && card == (if current == ScreenMain then Turned(old(card), SensorCount, diff > 0) else old(card))
        && item == (if IsSettings(current) then Turned(old(item), SettingsItems, diff > 0) else old(item))
      ensures !(valueChanged && diff != 0) ==> card == old(card) && item == old(item)
      ensures unhidden == old(unhidden) && focus == old(focus) && navigationEnabled == old(navigationEnabled)
      ensures detailCreated == old(detailCreated) && settingsCreated == old(settingsCreated)
      ensures labelsCreated == old(labelsCreated) && lastData == old(lastData) && snapshotValid == old(snapshotValid)
    {
      if e == Key(KeyEnter) || e == Key(KeyEsc) {
        var t := if e == Key(KeyEnter) then PressTarget(current, card) else BackTarget(current);
        if t.Some? && targetExists {
          detailIndex := DetailIndexAfter(current, t.value, detailIndex);
          current := t.value;
        }
      }
      if valueChanged && diff != 0 {
        if current == ScreenMain {
          card := Turned(card, SensorCount, diff > 0);
        } else if IsSettings(current) {
          item := Turned(item, SettingsItems, diff > 0);
        }
      }
    }

    /** lvgl_set_focus: only the six cards can take the focus. */
    method SetFocus(index: int)
      modifies this
      ensures 0 <= index < SensorCount ==> focus == index
      ensures !(0 <= index < SensorCount) ==> focus == old(focus)
      ensures current == old(current) && card == old(card) && item == old(item) && unhidden == old(unhidden)
      ensures detailIndex == old(detailIndex) && navigationEnabled == old(navigationEnabled)
      ensures detailCreated == old(detailCreated) && settingsCreated == old(settingsCreated)
      ensures labelsCreated == old(labelsCreated) && lastData == old(lastData) && snapshotValid == old(snapshotValid)
    {
      if index < 0 || index >= SensorCount {
        return;
      }
      focus := index;
    }

    /** lvgl_get_total_focus_items. */
    function TotalFocusItems(): (n: nat)
      ensures n == SensorCount
    {
      SensorCount
    }

    /** lvgl_clear_focus_group. */
    method ClearFocus()
      modifies this
      ensures focus == -1
      ensures current == old(current) && card == old(card) && item == old(item) && unhidden == old(unhidden)
      ensures detailIndex == old(detailIndex) && navigationEnabled == old(navigationEnabled)
      ensures detailCreated == old(detailCreated) && settingsCreated == old(settingsCreated)
      ensures labelsCreated == old(labelsCreated) && lastData == old(lastData) && snapshotValid == old(snapshotValid)
    {
      focus := -1;
    }

    /** The main UI is built: the value labels exist from here on. */
    method CreateMainUi()
      modifies this
      ensures labelsCreated
      ensures current == old(current) && card == old(card) && item == old(item) && unhidden == old(unhidden)
      ensures detailIndex == old(detailIndex) && navigationEnabled == old(navigationEnabled) && focus == old(focus)
      ensures detailCreated == old(detailCreated) && settingsCreated == old(settingsCreated)
      ensures lastData == old(lastData) && snapshotValid == old(snapshotValid)
    {
      labelsCreated := true;
    }

    /**
     * update_sensor_display: keep the snapshot and, once the value labels
     * exist, record every card's reading in its history row.
     */
    method UpdateSensorDisplay(d: SensorManager.SensorData)
      requires Valid()
      modifies this, ring.rows, ring.pos, ring.full
      ensures Valid()
      ensures lastData == d && snapshotValid
      ensures forall i :: 0 <= i < SensorCount ==>
        ring.Series(i) == (if labelsCreated then PushBounded(old(ring.Series(i)), Scaled(i, SensorValue(d, i)), HistoryPoints)
                           else old(ring.Series(i)))
      ensures current == old(current) && card == old(card) && item == old(item) && unhidden == old(unhidden)
      ensures detailIndex == old(detailIndex) && navigationEnabled == old(navigationEnabled) && focus == old(focus)
      ensures detailCreated == old(detailCreated) && settingsCreated == old(settingsCreated)
      ensures labelsCreated == old(labelsCreated)
    {
      lastData := d;
      snapshotValid := true;
      if labelsCreated {
        ring.RecordAll(d);
      }
    }
  }
}
