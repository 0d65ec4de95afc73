/**
 * The screen registry of components/lvgl_ui/screen_manager: the one shared
 * manager record (registered configurations, created instances, the
 * current screen and the navigation history) and the registry operations
 * on it.  Callbacks are reduced to whether they are present.
 */
module ScreenRegistry {

  import opened Wrappers
  import opened Esp

  const MaxScreens := 40
  const MaxInstances := 15
  const MaxHistory := 10
  const MaxIdLen := 32

  /** A screen_config_t; only the fields the manager logic reads. */
  datatype ScreenConfig = ScreenConfig(
    id: string, parentId: string, canGoBack: bool, isRoot: bool,
    cacheOnHide: bool, destroyOnHide: bool,
    hasCreateFn: bool, hasCanShowFn: bool)

  /** A screen_instance_t; `group` is the encoder group's widgets, None when no group was created. */
  datatype Instance = Instance(
    config: ScreenConfig, isCreated: bool, isVisible: bool, isCached: bool,
    group: Option<seq<nat>>)

  predicate IdChar(c: char)
  {
    ('a' <= c <= 'z') || ('A' <= c <= 'Z') || ('0' <= c <= '9') || c == '_' || c == '-'
  }

  /** is_screen_id_valid: non-empty, shorter than 32, only [A-Za-z0-9_-]. */
  predicate IsValidId(s: string)
  {
    0 < |s| < MaxIdLen && forall i :: 0 <= i < |s| ==> IdChar(s[i])
  }

  /** The character loop of is_screen_id_valid; None is a NULL id. */
  method IsScreenIdValid(id: Option<string>) returns (valid: bool)
    ensures valid <==> id.Some? && IsValidId(id.value)
  {
    if id.None? || |id.value| == 0 || |id.value| >= MaxIdLen {
      return false;
    }
    var s := id.value;
    for i := 0 to |s|
      invariant forall j :: 0 <= j < i ==> IdChar(s[j])
    {
      if !IdChar(s[i]) {
        return false;
      }
    }
    return true;
  }

  /** No two configurations share an id. */
  predicate UniqueIds(xs: seq<ScreenConfig>)
  {
    forall i, j :: 0 <= i < j < |xs| ==> xs[i].id != xs[j].id
  }

  /** No two instances belong to the same screen id. */
  predicate UniqueInstances(xs: seq<Instance>)
  {
    forall i, j :: 0 <= i < j < |xs| ==> xs[i].config.id != xs[j].config.id
  }

  /** The first registered configuration with that id (find_screen_by_id). */
  function ScreenIndex(xs: seq<ScreenConfig>, id: string): (r: Option<nat>)
    ensures r.Some? ==> r.value < |xs| && xs[r.value].id == id
    ensures r.Some? ==> forall j :: 0 <= j < r.value ==> xs[j].id != id
    ensures r.None? <==> forall j :: 0 <= j < |xs| ==> xs[j].id != id
  {
    if xs == [] then None
    else if xs[0].id == id then Some(0)
    else match ScreenIndex(xs[1..], id)
      case Some(k) => Some(k + 1)
      case None => None
  }

  /** The first instance of that screen id (find_instance_by_id). */
  function InstanceIndex(xs: seq<Instance>, id: string): (r: Option<nat>)
    ensures r.Some? ==> r.value < |xs| && xs[r.value].config.id == id
    ensures r.Some? ==> forall j :: 0 <= j < r.value ==> xs[j].config.id != id
    ensures r.None? <==> forall j :: 0 <= j < |xs| ==> xs[j].config.id != id
  {
    if xs == [] then None
    else if xs[0].config.id == id then Some(0)
    else match InstanceIndex(xs[1..], id)
      case Some(k) => Some(k + 1)
      case None => None
  }

  /** Appending a configuration whose id is new keeps ids unique. */
  lemma AppendKeepsUnique(xs: seq<ScreenConfig>, c: ScreenConfig)
    requires UniqueIds(xs) && ScreenIndex(xs, c.id).None?
    ensures UniqueIds(xs + [c])
  {
    assert forall i :: 0 <= i < |xs| ==> (xs + [c])[i] == xs[i];
  }

  /** Removing one configuration keeps the rest unique and drops exactly that id. */
  lemma {:induction false} RemoveKeepsUnique(xs: seq<ScreenConfig>, k: nat)
    requires UniqueIds(xs) && k < |xs|
    ensures UniqueIds(xs[..k] + xs[k + 1..])
    ensures ScreenIndex(xs[..k] + xs[k + 1..], xs[k].id).None?
  {
    var ys := xs[..k] + xs[k + 1..];
    assert forall i :: 0 <= i < |ys| ==> ys[i] == xs[if i < k then i else i + 1];
  }

  /** The shared screen_manager_t. */
  /** The memset of the history slots in screen_registry_init. */
  method ClearHistory(a: array<string>)
    modifies a
    ensures forall i :: 0 <= i < a.Length ==> a[i] == ""
  {
    for i := 0 to a.Length
      invariant forall j :: 0 <= j < i ==> a[j] == ""
    {
      a[i] := "";
    }
  }

  class Manager {
    var initialized: bool
    var screens: seq<ScreenConfig>
    var instances: seq<Instance>
    var current: Option<string>       // id of current_screen's instance
    var history: array<string>        // instance ids; "" is a NULL slot
    var historyCount: nat
    var historyIndex: nat
    var enableCache: bool
    var enableHistory: bool
    var maxCacheSize: nat
    var transitionTime: nat
    var enableAnimations: bool

    predicate Valid()
      reads this
    {
      history.Length == MaxHistory && historyCount <= MaxHistory
      && |screens| <= MaxScreens && UniqueIds(screens)
      && |instances| <= MaxInstances && UniqueInstances(instances)
      && (current.Some? ==> InstanceIndex(instances, current.value).Some?)
    }

    /** The history stack, oldest first. */
    function History(): (h: seq<string>)
      reads this, history
      requires Valid()
      ensures |h| == historyCount <= MaxHistory
    {
      history[..historyCount]
    }

    /** The zero-initialised static record. */
    constructor()
      ensures Valid() && !initialized && screens == [] && instances == []
      ensures current.None? && History() == [] && historyIndex == 0
    {
      initialized := false;
      screens := [];
      instances := [];
      current := None;
      history := new string[MaxHistory](_ => "");
      historyCount := 0;
      historyIndex := 0;
      enableCache := false;
      enableHistory := false;
      maxCacheSize := 0;
      transitionTime := 0;
      enableAnimations := false;
    }

    /** screen_registry_init: idempotent; the first call zeroes the record and sets the defaults. */
    method Init() returns (err: Err)
      requires Valid()
      modifies this, history
      ensures Valid() && err == Ok && initialized
      ensures old(initialized) ==> unchanged(this) && unchanged(history)
      ensures !old(initialized) ==>
        screens == [] && instances == [] && current.None? && History() == [] && historyIndex == 0
        && history == old(history) && (forall i :: 0 <= i < history.Length ==> history[i] == "")
        && enableCache && enableHistory && maxCacheSize == 5 && transitionTime == 300 && !enableAnimations
    {
      if initialized {
        return Ok;
      }
      screens := [];
      instances := [];
      current := None;
      ClearHistory(history);
      historyCount := 0;
      historyIndex := 0;
      SetDefaults();
      initialized := true;
      return Ok;
    }

    /** The configuration defaults screen_registry_init writes. */
    method SetDefaults()
      modifies this`enableCache, this`enableHistory, this`maxCacheSize, this`transitionTime, this`enableAnimations
      ensures enableCache && enableHistory && maxCacheSize == 5 && transitionTime == 300 && !enableAnimations
    {
      enableCache := true;
      enableHistory := true;
      maxCacheSize := 5;
      transitionTime := 300;
      enableAnimations := false;
    }

    /** The search loop of find_screen_by_id. */
    method FindScreen(id: string) returns (r: Option<nat>)
      ensures r == ScreenIndex(screens, id)
    {
      var i := 0;
      while i < |screens|
        invariant 0 <= i <= |screens|
        invariant forall j :: 0 <= j < i ==> screens[j].id != id
      {
        if screens[i].id == id {
          FirstScreenIs(screens, id, i);
          return Some(i);
        }
        i := i + 1;
      }
      return None;
    }

    /** screen_register; None is a NULL config. */
    method Register(config: Option<ScreenConfig>) returns (err: Err)
      requires Valid()
      modifies this
      ensures Valid()
      ensures err == Ok <==> config.Some? && IsValidId(config.value.id) && config.value.hasCreateFn
                             && |old(screens)| < MaxScreens && ScreenIndex(old(screens), config.value.id).None?
      ensures err == Ok ==> screens == old(screens) + [config.value]
      ensures err != Ok ==> screens == old(screens)
      ensures config.None? || !IsValidId(config.value.id) || !config.value.hasCreateFn ==> err == ErrInvalidArg
      ensures config.Some? && IsValidId(config.value.id) && config.value.hasCreateFn ==>
        (|old(screens)| >= MaxScreens ==> err == ErrNoMem)
        && (|old(screens)| < MaxScreens && ScreenIndex(old(screens), config.value.id).Some? ==> err == ErrInvalidState)
      ensures instances == old(instances) && current == old(current) && history == old(history)
      ensures historyCount == old(historyCount) && historyIndex == old(historyIndex) && initialized == old(initialized)
    {
      var valid := IsScreenIdValid(if config.Some? then Some(config.value.id) else None);
      if config.None? || !valid || !config.value.hasCreateFn {
        return ErrInvalidArg;
      }
      if |screens| >= MaxScreens {
        return ErrNoMem;
      }
      var existing := FindScreen(config.value.id);
      if existing.Some? {
        return ErrInvalidState;
      }
      AppendKeepsUnique(screens, config.value);
      screens := screens + [config.value];
      return Ok;
    }

    /** screen_unregister: removes that configuration and keeps the others in order. */
    method Unregister(id: string) returns (err: Err)
      requires Valid()
      modifies this
      ensures Valid()
      ensures !IsValidId(id) ==> err == ErrInvalidArg && screens == old(screens)
      ensures IsValidId(id) && ScreenIndex(old(screens), id).None? ==> err == ErrNotFound && screens == old(screens)
      ensures IsValidId(id) && ScreenIndex(old(screens), id).Some? ==>
        var k := ScreenIndex(old(screens), id).value;
        err == Ok && screens == old(screens)[..k] + old(screens)[k + 1..]
        && ScreenIndex(screens, id).None?
      ensures instances == old(instances) && current == old(current) && history == old(history)
      ensures historyCount == old(historyCount) && historyIndex == old(historyIndex) && initialized == old(initialized)
    {
      var valid := IsScreenIdValid(Some(id));
      if !valid {
        return ErrInvalidArg;
      }
      var index := FindScreen(id);
      if index.None? {
        return ErrNotFound;
      }
      var k := index.value;
      RemoveKeepsUnique(screens, k);
      screens := screens[..k] + screens[k + 1..];
      return Ok;
    }

    /** screen_get_config: None for an invalid or unregistered id. */
    method GetConfig(id: string) returns (c: Option<ScreenConfig>)
      ensures c.Some? <==> IsValidId(id) && ScreenIndex(screens, id).Some?
      ensures c.Some? ==> c.value in screens && c.value.id == id
    {
      var valid := IsScreenIdValid(Some(id));
      if !valid {
        return None;
      }
      var index := FindScreen(id);
      if index.None? {
        return None;
      }
      return Some(screens[index.value]);
    }
  }

  /** A registered screen can be looked up right after registering it. */
  lemma RegisterThenFound(xs: seq<ScreenConfig>, c: ScreenConfig)
    requires ScreenIndex(xs, c.id).None?
    ensures ScreenIndex(xs + [c], c.id) == Some(|xs|)
  {
    FirstScreenIs(xs + [c], c.id, |xs|);
  }

  lemma {:induction false} FirstScreenIs(xs: seq<ScreenConfig>, id: string, i: nat)
    requires i < |xs| && xs[i].id == id
    requires forall j :: 0 <= j < i ==> xs[j].id != id
    ensures ScreenIndex(xs, id) == Some(i)
  {
    if i > 0 {
      FirstScreenIs(xs[1..], id, i - 1);
    }
  }

  lemma {:induction false} FirstInstanceIs(xs: seq<Instance>, id: string, i: nat)
    requires i < |xs| && xs[i].config.id == id
    requires forall j :: 0 <= j < i ==> xs[j].config.id != id
    ensures InstanceIndex(xs, id) == Some(i)
  {
    if i > 0 {
      FirstInstanceIs(xs[1..], id, i - 1);
    }
  }
}
