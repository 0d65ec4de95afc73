/**
 * The persistent hydroponics settings of components/hydro_settings: clamped
 * setters that save and notify only on a real change, the lighting
 * schedule, the five listener slots, and adoption of the stored blob.
 * Floats are reals; the NVS blob is a field holding the last saved record.
 */
module HydroSettings {

  import opened Wrappers
  import opened Esp

  const SettingsVersion := 1
  const MaxListeners := 5
  const FloatEpsilon: real := 0.01

  datatype Settings = Settings(
    version: nat,
    targetPh: real, phTolerance: real, targetEc: real, ecTolerance: real,
    dosingDurationMs: nat, dosingCooldownS: nat,
    autoDosingEnabled: bool, lightingAutoMode: bool, lightingManualState: bool,
    lightingOnHour: nat, lightingOffHour: nat)

  /** The compiled-in s_settings. */
  const Defaults := Settings(SettingsVersion, 6.2, 0.3, 1.8, 0.2, 500, 120, true, true, true, 6, 22)

  /** A stored blob; `sizeMatches` is whether nvs_get_blob returned sizeof(hydro_settings_t). */
  datatype Blob = Blob(sizeMatches: bool, settings: Settings)

  /** One call of a listener with the settings it was given. */
  datatype Delivery = Delivery(listener: nat, settings: Settings)

  /** The four float fields commit_if_changed_float can be pointed at. */
  datatype FloatField = TargetPh | PhTolerance | TargetEc | EcTolerance
  /** The two uint32 fields commit_if_changed_u32 can be pointed at. */
  datatype U32Field = DosingDuration | DosingCooldown
  /** The three bool fields commit_if_changed_bool can be pointed at. */
  datatype BoolField = AutoDosing | LightingAuto | LightingManual

  function FloatOf(s: Settings, f: FloatField): real
  {
    match f
    case TargetPh => s.targetPh
    case PhTolerance => s.phTolerance
    case TargetEc => s.targetEc
    case EcTolerance => s.ecTolerance
  }

  function WithFloat(s: Settings, f: FloatField, v: real): (r: Settings)
    ensures FloatOf(r, f) == v
    ensures forall g :: g != f ==> FloatOf(r, g) == FloatOf(s, g)
  {
    match f
    case TargetPh => s.(targetPh := v)
    case PhTolerance => s.(phTolerance := v)
    case TargetEc => s.(targetEc := v)
    case EcTolerance => s.(ecTolerance := v)
  }

  /** The clamp range each float setter applies. */
  function FloatLow(f: FloatField): real { 0.0 }
  function FloatHigh(f: FloatField): real
  {
    match f
    case TargetPh => 14.0
    case PhTolerance => 7.0
    case TargetEc => 10.0
    case EcTolerance => 5.0
  }

  function U32Of(s: Settings, f: U32Field): nat
  {
    match f
    case DosingDuration => s.dosingDurationMs
    case DosingCooldown => s.dosingCooldownS
  }

  function WithU32(s: Settings, f: U32Field, v: nat): (r: Settings)
    ensures U32Of(r, f) == v
  {
    match f
    case DosingDuration => s.(dosingDurationMs := v)
    case DosingCooldown => s.(dosingCooldownS := v)
  }

  function U32Low(f: U32Field): nat
  {
    match f
    case DosingDuration => 100
    case DosingCooldown => 10
  }

  function U32High(f: U32Field): nat
  {
    match f
    case DosingDuration => 10000
    case DosingCooldown => 3600
  }

  function BoolOf(s: Settings, f: BoolField): bool
  {
    match f
    case AutoDosing => s.autoDosingEnabled
    case LightingAuto => s.lightingAutoMode
    case LightingManual => s.lightingManualState
  }

  function WithBool(s: Settings, f: BoolField, v: bool): (r: Settings)
    ensures BoolOf(r, f) == v
  {
    match f
    case AutoDosing => s.(autoDosingEnabled := v)
    case LightingAuto => s.(lightingAutoMode := v)
    case LightingManual => s.(lightingManualState := v)
  }

  function Abs(x: real): real { if x < 0.0 then -x else x }

  /** float_changed. */
  predicate FloatChanged(current: real, next: real, epsilon: real)
  {
    Abs(current - next) >= epsilon
  }

  /** The clamp of the float setters. */
  function ClampReal(v: real, lo: real, hi: real): (r: real)
    requires lo <= hi
    ensures lo <= r <= hi
    ensures lo <= v <= hi ==> r == v
    ensures v < lo ==> r == lo
    ensures v > hi ==> r == hi
  {
    if v < lo then lo else if v > hi then hi else v
  }

  /** The clamp of the uint32 setters. */
  function ClampNat(v: nat, lo: nat, hi: nat): (r: nat)
    requires lo <= hi
    ensures lo <= r <= hi
    ensures lo <= v <= hi ==> r == v
    ensures v < lo ==> r == lo
    ensures v > hi ==> r == hi
  {
    if v < lo then lo else if v > hi then hi else v
  }

  /** normalize_hour on a uint8 argument. */
  function NormalizeHour(h: nat): (r: nat)
    ensures r < 24
    ensures h < 24 ==> r == h
    ensures (r - h) % 24 == 0
  {
    h % 24
  }

  /** Clamping twice changes nothing, so repeating a setter call never saves again. */
  lemma RepeatedSetIsNoChange(f: FloatField, value: real)
    ensures var v := ClampReal(value, FloatLow(f), FloatHigh(f));
      ClampReal(v, FloatLow(f), FloatHigh(f)) == v && !FloatChanged(v, v, FloatEpsilon)
  {
  }

  /** The listener calls notify_listeners makes, in slot order. */
  function Deliveries(ls: seq<nat>, s: Settings): (r: seq<Delivery>)
    ensures |r| <= |ls|
    ensures forall d :: d in r ==> d.settings == s && d.listener != 0 && d.listener in ls
  {
    if ls == [] then []
    else Deliveries(ls[..|ls| - 1], s) + (if ls[|ls| - 1] != 0 then [Delivery(ls[|ls| - 1], s)] else [])
  }

  /** The slot register_listener stops at: the listener itself or the first free one. */
  function StopSlot(ls: seq<nat>, l: nat): (r: Option<nat>)
    ensures r.Some? ==> r.value < |ls| && (ls[r.value] == l || ls[r.value] == 0)
    ensures r.Some? ==> forall j :: 0 <= j < r.value ==> ls[j] != l && ls[j] != 0
    ensures r.None? <==> forall j :: 0 <= j < |ls| ==> ls[j] != l && ls[j] != 0
  {
    if ls == [] then None
    else if ls[0] == l || ls[0] == 0 then Some(0)
    else match StopSlot(ls[1..], l)
      case Some(k) => Some(k + 1)
      case None => None
  }

  /** Free slots only follow used ones: listeners are never removed. */
  predicate Packed(ls: seq<nat>)
  {
    forall i, j :: 0 <= i < j < |ls| && ls[i] == 0 ==> ls[j] == 0
  }

  /** No listener occupies two slots. */
  predicate NoDuplicateListeners(ls: seq<nat>)
  {
    forall i, j :: 0 <= i < j < |ls| && ls[i] != 0 ==> ls[i] != ls[j]
  }

  /** Registering into the first free slot keeps the slots packed and free of duplicates. */
  lemma RegisterKeepsSlots(ls: seq<nat>, l: nat)
    requires Packed(ls) && NoDuplicateListeners(ls) && l != 0
    requires StopSlot(ls, l).Some? && ls[StopSlot(ls, l).value] == 0
    ensures Packed(ls[StopSlot(ls, l).value := l]) && NoDuplicateListeners(ls[StopSlot(ls, l).value := l])
    ensures l !in ls
  {
    var k := StopSlot(ls, l).value;
    assert forall j :: k <= j < |ls| ==> ls[j] == 0;
  }

  /** How load_from_nvs treats a stored blob: adopted only when size and version match. */
  function Adopted(stored: Option<Blob>, current: Settings): (r: Settings)
  {
    if stored.Some? && stored.value.sizeMatches && stored.value.settings.version == SettingsVersion
    then stored.value.settings else current
  }

  /** A record saved by this module is adopted unchanged by the next load. */
  lemma SaveThenLoad(s: Settings, other: Settings)
    requires s.version == SettingsVersion
    ensures Adopted(Some(Blob(true, s)), other) == s
  {
  }

  /** A blob of another version, or a missing one, leaves the current settings in force. */
  lemma MismatchKeepsCurrent(stored: Option<Blob>, current: Settings)
    requires stored.None? || !stored.value.sizeMatches || stored.value.settings.version != SettingsVersion
    ensures Adopted(stored, current) == current
  {
  }

  class Store {
    var settings: Settings
    var listeners: array<nat>         // 0 is an empty slot
    var initialized: bool
    var nvs: Option<Blob>             // the "settings" blob of namespace hydro_cfg
    var delivered: seq<Delivery>      // every listener call so far

    predicate Valid()
      reads this, listeners
    {
      listeners.Length == MaxListeners && Packed(listeners[..]) && NoDuplicateListeners(listeners[..])
      && settings.version == SettingsVersion
    }

    constructor(stored: Option<Blob>)
      ensures Valid() && settings == Defaults && !initialized && nvs == stored && delivered == []
      ensures fresh(listeners) && forall i :: 0 <= i < listeners.Length ==> listeners[i] == 0
    {
      settings := Defaults;
      listeners := new nat[MaxListeners](_ => 0);
      initialized := false;
      nvs := stored;
      delivered := [];
    }

    /** notify_listeners. */
    method NotifyListeners()
      modifies this`delivered
      ensures delivered == old(delivered) + Deliveries(listeners[..], settings)
    {
      var a := listeners;
      for i := 0 to a.Length
        invariant delivered == old(delivered) + Deliveries(a[..i], settings)
      {
        assert a[..i + 1][..i] == a[..i];
        if a[i] != 0 {
          delivered := delivered + [Delivery(a[i], settings)];
        }
      }
      assert a[..a.Length] == a[..];
    }

    /** save_to_nvs; `result` is what the NVS writes and commit returned. */
    method SaveToNvs(result: Err) returns (err: Err)
      modifies this
      ensures err == result
      ensures nvs == if result == Ok then Some(Blob(true, settings)) else old(nvs)
      ensures settings == old(settings) && delivered == old(delivered) && initialized == old(initialized)
      ensures listeners == old(listeners)
    {
      if result == Ok {
        nvs := Some(Blob(true, settings));
      }
      return result;
    }

    /** update_and_save: listeners hear of the change only when the save succeeded. */
    method UpdateAndSave(result: Err) returns (err: Err)
      modifies this
      ensures err == result
      ensures nvs == if result == Ok then Some(Blob(true, settings)) else old(nvs)
      ensures delivered == old(delivered) + (if result == Ok then Deliveries(listeners[..], settings) else [])
      ensures settings == old(settings) && initialized == old(initialized) && listeners == old(listeners)
    {
      err := SaveToNvs(result);
      if err == Ok {
        NotifyListeners();
      }
    }

    /**
     * hydro_settings_set_target_ph, _ph_tolerance, _target_ec and
     * _ec_tolerance: clamp, then commit_if_changed_float with epsilon 0.01.
     * The field keeps the new value even when the save fails.
     */
    method SetFloat(f: FloatField, value: real, saveResult: Err) returns (err: Err)
      requires Valid()
      modifies this
      ensures Valid() && listeners == old(listeners) && initialized == old(initialized)
      ensures var v := ClampReal(value, FloatLow(f), FloatHigh(f));
        (!FloatChanged(FloatOf(old(settings), f), v, FloatEpsilon) ==>
           err == Ok && settings == old(settings) && nvs == old(nvs) && delivered == old(delivered))
        && (FloatChanged(FloatOf(old(settings), f), v, FloatEpsilon) ==>
           settings == WithFloat(old(settings), f, v) && err == saveResult
           && nvs == (if saveResult == Ok then Some(Blob(true, settings)) else old(nvs))
           && delivered == old(delivered) + (if saveResult == Ok then Deliveries(listeners[..], settings) else []))
    {
      var v := ClampReal(value, FloatLow(f), FloatHigh(f));
      if !FloatChanged(FloatOf(settings, f), v, FloatEpsilon) {
        return Ok;
      }
      settings := WithFloat(settings, f, v);
      err := UpdateAndSave(saveResult);
    }

    /** hydro_settings_set_dosing_duration and _dosing_cooldown: clamp, then commit_if_changed_u32. */
    method SetU32(f: U32Field, value: nat, saveResult: Err) returns (err: Err)
      requires Valid()
      modifies this
      ensures Valid() && listeners == old(listeners) && initialized == old(initialized)
      ensures var v := ClampNat(value, U32Low(f), U32High(f));
        (U32Of(old(settings), f) == v ==>
           err == Ok && settings == old(settings) && nvs == old(nvs) && delivered == old(delivered))
        && (U32Of(old(settings), f) != v ==>
           settings == WithU32(old(settings), f, v) && err == saveResult
           && nvs == (if saveResult == Ok then Some(Blob(true, settings)) else old(nvs))
           && delivered == old(delivered) + (if saveResult == Ok then Deliveries(listeners[..], settings) else []))
    {
      var v := ClampNat(value, U32Low(f), U32High(f));
      if U32Of(settings, f) == v {
        return Ok;
      }
      settings := WithU32(settings, f, v);
      err := UpdateAndSave(saveResult);
    }

    /** The three boolean setters: commit_if_changed_bool. */
    method SetBool(f: BoolField, value: bool, saveResult: Err) returns (err: Err)
      requires Valid()
      modifies this
      ensures Valid() && listeners == old(listeners) && initialized == old(initialized)
      ensures BoolOf(old(settings), f) == value ==>
        err == Ok && settings == old(settings) && nvs == old(nvs) && delivered == old(delivered)
      ensures BoolOf(old(settings), f) != value ==>
        settings == WithBool(old(settings), f, value) && err == saveResult
        && nvs == (if saveResult == Ok then Some(Blob(true, settings)) else old(nvs))
        && delivered == old(delivered) + (if saveResult == Ok then Deliveries(listeners[..], settings) else [])
    {
      if BoolOf(settings, f) == value {
        return Ok;
      }
      settings := WithBool(settings, f, value);
      err := UpdateAndSave(saveResult);
    }

    /** hydro_settings_set_lighting_schedule; the hours are uint8 arguments. */
    method SetLightingSchedule(onHour: nat, offHour: nat, saveResult: Err) returns (err: Err)
      requires Valid() && onHour < 256 && offHour < 256
      modifies this
      ensures Valid() && listeners == old(listeners) && initialized == old(initialized)
      ensures var on, off := NormalizeHour(onHour), NormalizeHour(offHour);
        (old(settings).lightingOnHour == on && old(settings).lightingOffHour == off ==>
           err == Ok && settings == old(settings) && nvs == old(nvs) && delivered == old(delivered))
        && (!(old(settings).lightingOnHour == on && old(settings).lightingOffHour == off) ==>
           settings == old(settings).(lightingOnHour := on, lightingOffHour := off) && err == saveResult
           && nvs == (if saveResult == Ok then Some(Blob(true, settings)) else old(nvs))
           && delivered == old(delivered) + (if saveResult == Ok then Deliveries(listeners[..], settings) else []))
    {
      var on := NormalizeHour(onHour);
      var off := NormalizeHour(offHour);
      if settings.lightingOnHour == on && settings.lightingOffHour == off {
        return Ok;
      }
      settings := settings.(lightingOnHour := on, lightingOffHour := off);
      err := UpdateAndSave(saveResult);
    }

    /**
     * hydro_settings_register_listener; 0 is a NULL listener.  A new
     * listener is called at once when the module is initialised.
     */
    method RegisterListener(l: nat) returns (err: Err)
      requires Valid()
      modifies this, listeners
      ensures Valid() && listeners == old(listeners)
      ensures settings == old(settings) && nvs == old(nvs) && initialized == old(initialized)
      ensures l == 0 ==> err == ErrInvalidArg && unchanged(listeners) && delivered == old(delivered)
      ensures l != 0 && StopSlot(old(listeners[..]), l).None? ==>
        err == ErrNoMem && unchanged(listeners) && delivered == old(delivered)
      ensures l != 0 && StopSlot(old(listeners[..]), l).Some? && l in old(listeners[..]) ==>
        err == Ok && unchanged(listeners) && delivered == old(delivered)
      ensures l != 0 && StopSlot(old(listeners[..]), l).Some? && l !in old(listeners[..]) ==>
        err == Ok && listeners[..] == old(listeners[..])[StopSlot(old(listeners[..]), l).value := l]
        && delivered == old(delivered) + (if initialized then [Delivery(l, settings)] else [])
      ensures err == Ok ==> l in listeners[..]
    {
      if l == 0 {
        return ErrInvalidArg;
      }
      var a := listeners;
      for i := 0 to a.Length
        invariant forall j :: 0 <= j < i ==> a[j] != l && a[j] != 0
      {
        if a[i] == l {
          return Ok;
        }
        if a[i] == 0 {
          ghost var before := a[..];
          StopSlotIs(before, l, i);
          RegisterKeepsSlots(before, l);
          a[i] := l;
          assert a[..] == before[i := l];
          if initialized {
            delivered := delivered + [Delivery(l, settings)];
          }
          return Ok;
        }
      }
      StopSlotNone(a[..], l);
      return ErrNoMem;
    }

    /**
     * load_from_nvs.  `openOk` is whether nvs_open succeeded and
     * `saveResult` what re-saving returns when the blob is missing or stale.
     */
    method LoadFromNvs(openOk: bool, saveResult: Err)
      requires Valid()
      modifies this
      ensures Valid() && listeners == old(listeners) && initialized == old(initialized) && delivered == old(delivered)
      ensures !openOk ==> settings == old(settings) && nvs == old(nvs)
      ensures openOk ==> settings == Adopted(old(nvs), old(settings))
      ensures openOk && settings == old(settings) && !(old(nvs).Some? && old(nvs).value.sizeMatches
                                                       && old(nvs).value.settings.version == SettingsVersion) ==>
        nvs == (if saveResult == Ok then Some(Blob(true, settings)) else old(nvs))
    {
      if !openOk {
        return;
      }
      if nvs.Some? && nvs.value.sizeMatches {
        if nvs.value.settings.version == SettingsVersion {
          settings := nvs.value.settings;
        } else {
          var _ := SaveToNvs(saveResult);
        }
      } else {
        var _ := SaveToNvs(saveResult);
      }
    }

    /** hydro_settings_init: load once, then tell every listener. */
    method Init(openOk: bool, saveResult: Err) returns (err: Err)
      requires Valid()
      modifies this
      ensures Valid() && listeners == old(listeners) && err == Ok && initialized
      ensures old(initialized) ==> settings == old(settings) && nvs == old(nvs) && delivered == old(delivered)
      ensures !old(initialized) ==>
        settings == (if openOk then Adopted(old(nvs), old(settings)) else old(settings))
        && delivered == old(delivered) + Deliveries(listeners[..], settings)
    {
      if initialized {
        return Ok;
      }
      LoadFromNvs(openOk, saveResult);
      initialized := true;
      NotifyListeners();
      return Ok;
    }
  }

  lemma {:induction false} StopSlotIs(ls: seq<nat>, l: nat, i: nat)
    requires i < |ls| && (ls[i] == l || ls[i] == 0)
    requires forall j :: 0 <= j < i ==> ls[j] != l && ls[j] != 0
    ensures StopSlot(ls, l) == Some(i)
  {
    if i > 0 {
      StopSlotIs(ls[1..], l, i - 1);
    }
  }

  lemma StopSlotNone(ls: seq<nat>, l: nat)
    requires forall j :: 0 <= j < |ls| ==> ls[j] != l && ls[j] != 0
    ensures StopSlot(ls, l).None?
  {
  }
}
