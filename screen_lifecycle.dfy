/**
 * Instance bookkeeping of components/lvgl_ui/screen_manager/screen_lifecycle.c:
 * creating, destroying, showing and hiding screen instances in the shared
 * manager record, and the encoder-group de-duplication.  The LVGL object
 * tree is reduced to the outcomes the bookkeeping depends on (whether
 * create_fn built a screen, whether a group was made, what can_show_fn
 * answered, and the widgets the tree walk collects).
 */
module ScreenLifecycle {

  import opened Wrappers
  import opened Esp
  import opened ScreenRegistry

  /** The instance of a screen id, if any. */
  function Lookup(xs: seq<Instance>, id: string): (r: Option<Instance>)
    ensures r.Some? <==> InstanceIndex(xs, id).Some?
    ensures r.Some? ==> r.value == xs[InstanceIndex(xs, id).value] && r.value.config.id == id
  {
    match InstanceIndex(xs, id)
    case None => None
    case Some(k) => Some(xs[k])
  }

  /** The history with every occurrence of x removed. */
  function Without(h: seq<string>, x: string): (r: seq<string>)
    ensures |r| <= |h|
    ensures forall i :: 0 <= i < |r| ==> r[i] != x
  {
    if h == [] then []
    else Without(h[..|h| - 1], x) + (if h[|h| - 1] == x then [] else [h[|h| - 1]])
  }

  lemma {:induction false} WithoutAppend(a: seq<string>, b: seq<string>, x: string)
    ensures Without(a + b, x) == Without(a, x) + Without(b, x)
    decreases |b|
  {
    if b == [] {
      assert a + b == a;
    } else {
      assert (a + b)[..|a + b| - 1] == a + b[..|b| - 1];
      WithoutAppend(a, b[..|b| - 1], x);
    }
  }

  /** Without keeps every other entry and their order: it is the identity on a history free of x. */
  lemma {:induction false} WithoutAbsent(h: seq<string>, x: string)
    requires forall i :: 0 <= i < |h| ==> h[i] != x
    ensures Without(h, x) == h
  {
    if h != [] {
      WithoutAbsent(h[..|h| - 1], x);
    }
  }

  /** Removing one occurrence of x does not change what Without leaves. */
  lemma {:induction false} RemoveOccurrence(h: seq<string>, i: nat, x: string)
    requires i < |h| && h[i] == x
    ensures Without(h[..i] + h[i + 1..], x) == Without(h, x)
    decreases |h|
  {
    var g := h[..i] + h[i + 1..];
    var p := h[..|h| - 1];
    if i == |h| - 1 {
      assert g == p;
    } else {
      assert g[..|g| - 1] == p[..i] + p[i + 1..];
      assert g[|g| - 1] == h[|h| - 1];
      RemoveOccurrence(p, i, x);
    }
  }

  lemma UniqueIndex(xs: seq<Instance>, k: nat)
    requires UniqueInstances(xs) && k < |xs|
    ensures InstanceIndex(xs, xs[k].config.id) == Some(k)
  {
    FirstInstanceIs(xs, xs[k].config.id, k);
  }

  /** Replacing an instance by one of the same screen keeps the table unique and every other lookup. */
  lemma LookupUpdate(xs: seq<Instance>, k: nat, v: Instance, x: string)
    requires UniqueInstances(xs) && k < |xs| && v.config.id == xs[k].config.id
    ensures UniqueInstances(xs[k := v])
    ensures Lookup(xs[k := v], x) == if x == v.config.id then Some(v) else Lookup(xs, x)
  {
    var ys := xs[k := v];
    UniqueIndex(ys, k);
    if x != v.config.id {
      match InstanceIndex(xs, x)
      case None =>
      case Some(j) =>
        FirstInstanceIs(ys, x, j);
    }
  }

  /** Removing instance k keeps the table unique, loses that screen and keeps every other lookup. */
  lemma LookupRemove(xs: seq<Instance>, k: nat, x: string)
    requires UniqueInstances(xs) && k < |xs|
    ensures UniqueInstances(xs[..k] + xs[k + 1..])
    ensures Lookup(xs[..k] + xs[k + 1..], x) == if x == xs[k].config.id then None else Lookup(xs, x)
  {
    var ys := xs[..k] + xs[k + 1..];
    assert forall i :: 0 <= i < |ys| ==> ys[i] == xs[if i < k then i else i + 1];
    if x != xs[k].config.id {
      match InstanceIndex(xs, x)
      case None =>
      case Some(j) =>
        var j' := if j < k then j else j - 1;
        FirstInstanceIs(ys, x, j');
    }
  }

  /** Appending an instance of a new screen keeps the table unique and every other lookup. */
  lemma LookupAppend(xs: seq<Instance>, v: Instance, x: string)
    requires UniqueInstances(xs) && InstanceIndex(xs, v.config.id).None?
    ensures UniqueInstances(xs + [v])
    ensures Lookup(xs + [v], x) == if x == v.config.id then Some(v) else Lookup(xs, x)
  {
    var ys := xs + [v];
    assert forall i :: 0 <= i < |xs| ==> ys[i] == xs[i];
    if x == v.config.id {
      FirstInstanceIs(ys, x, |xs|);
    } else {
      match InstanceIndex(xs, x)
      case None =>
      case Some(j) =>
        FirstInstanceIs(ys, x, j);
    }
  }

  /** The search loop of find_instance_by_id. */
  method FindInstance(m: Manager, id: string) returns (r: Option<nat>)
    ensures r == InstanceIndex(m.instances, id)
  {
    var i := 0;
    while i < |m.instances|
      invariant 0 <= i <= |m.instances|
      invariant forall j :: 0 <= j < i ==> m.instances[j].config.id != id
    {
      if m.instances[i].config.id == id {
        FirstInstanceIs(m.instances, id, i);
        return Some(i);
      }
      i := i + 1;
    }
    return None;
  }

  /**
   * screen_create_instance.  `uiCreated` is whether create_fn returned a
   * screen object and `groupCreated` whether lv_group_create succeeded.
   */
  method CreateInstance(m: Manager, id: string, uiCreated: bool, groupCreated: bool) returns (err: Err)
    requires m.Valid()
    modifies m
    ensures m.Valid()
    ensures Lookup(old(m.instances), id).Some? ==> err == Ok && unchanged(m)
    ensures Lookup(old(m.instances), id).None? && (!IsValidId(id) || ScreenIndex(m.screens, id).None?) ==>
      err == ErrNotFound && unchanged(m)
    ensures Lookup(old(m.instances), id).None? && IsValidId(id) && ScreenIndex(m.screens, id).Some? ==>
      (|old(m.instances)| >= MaxInstances ==> err == ErrNoMem && unchanged(m))
      && (|old(m.instances)| < MaxInstances && !uiCreated ==> err == Fail && unchanged(m))
      && (|old(m.instances)| < MaxInstances && uiCreated ==>
           err == Ok && m.instances == old(m.instances) + [Instance(m.screens[ScreenIndex(m.screens, id).value],
                                                               true, false, false,
                                                               if groupCreated then Some([]) else None)])
    ensures err == Ok ==> Lookup(m.instances, id).Some?
    ensures forall x :: x != id ==> Lookup(m.instances, x) == Lookup(old(m.instances), x)
    ensures err in {Ok, ErrNotFound, ErrNoMem, Fail}
    ensures m.screens == old(m.screens) && m.current == old(m.current) && m.history == old(m.history)
    ensures m.historyCount == old(m.historyCount) && m.historyIndex == old(m.historyIndex)
    ensures m.enableHistory == old(m.enableHistory)
  {
    var existing := FindInstance(m, id);
    if existing.Some? {
      return Ok;
    }
    var config := m.GetConfig(id);
    if config.None? {
      return ErrNotFound;
    }
    if |m.instances| >= MaxInstances {
      return ErrNoMem;
    }
    if !uiCreated {
      return Fail;
    }
    // the second look, taken after building the UI with the lock released
    var again := FindInstance(m, id);
    if again.Some? {
      return Ok;
    }
    if |m.instances| >= MaxInstances {
      return ErrNoMem;
    }
    assert config.value == m.screens[ScreenIndex(m.screens, id).value];
    var inst := Instance(config.value, true, false, false, if groupCreated then Some([]) else None);
    forall x
      ensures Lookup(m.instances + [inst], x) == if x == id then Some(inst) else Lookup(m.instances, x)
    {
      LookupAppend(m.instances, inst, x);
    }
    LookupAppend(m.instances, inst, id);
    if m.current.Some? {
      LookupAppend(m.instances, inst, m.current.value);
    }
    m.instances := m.instances + [inst];
    return Ok;
  }

  /** The inner shift of the history purge: entry i leaves and the slot after the last is cleared. */
  method RemoveHistoryAt(m: Manager, i: nat)
    requires m.Valid() && i < m.historyCount
    modifies m, m.history
    ensures m.Valid() && m.history == old(m.history)
    ensures m.History() == old(m.History())[..i] + old(m.History())[i + 1..]
    ensures m.screens == old(m.screens) && m.instances == old(m.instances) && m.current == old(m.current)
    ensures m.historyIndex == old(m.historyIndex) && m.enableHistory == old(m.enableHistory)
  {
    var a := m.history;
    var n := m.historyCount;
    ghost var h := a[..n];
    for j := i to n - 1
      modifies a
      invariant forall t :: 0 <= t < i ==> a[t] == h[t]
      invariant forall t :: i <= t < j ==> a[t] == h[t + 1]
      invariant forall t :: j <= t < n ==> a[t] == h[t]
    {
      a[j] := a[j + 1];
    }
    a[n - 1] := "";
    m.historyCount := n - 1;
    assert a[..n - 1] == h[..i] + h[i + 1..];
  }

  /** The purge loop of screen_destroy_instance: every history entry for `id` is removed. */
  method PurgeHistory(m: Manager, id: string)
    requires m.Valid()
    modifies m, m.history
    ensures m.Valid() && m.history == old(m.history)
    ensures m.History() == Without(old(m.History()), id)
    ensures m.screens == old(m.screens) && m.instances == old(m.instances) && m.current == old(m.current)
    ensures m.historyIndex == old(m.historyIndex) && m.enableHistory == old(m.enableHistory)
  {
    var i := 0;
    while i < m.historyCount
      invariant m.Valid() && m.history == old(m.history) && i <= m.historyCount
      invariant Without(m.History(), id) == Without(old(m.History()), id)
      invariant forall t :: 0 <= t < i ==> m.History()[t] != id
      invariant m.screens == old(m.screens) && m.instances == old(m.instances) && m.current == old(m.current)
      invariant m.historyIndex == old(m.historyIndex) && m.enableHistory == old(m.enableHistory)
      decreases m.historyCount - i
    {
      if m.history[i] == id {
        ghost var h := m.History();
        RemoveHistoryAt(m, i);
        RemoveOccurrence(h, i, id);
      } else {
        i := i + 1;
      }
    }
    WithoutAbsent(m.History(), id);
  }

  /** screen_destroy_instance. */
  method DestroyInstance(m: Manager, id: string) returns (err: Err)
    requires m.Valid()
    modifies m, m.history
    ensures m.Valid() && m.history == old(m.history)
    ensures Lookup(old(m.instances), id).None? ==> err == ErrNotFound && unchanged(m) && unchanged(m.history)
    ensures Lookup(old(m.instances), id).Some? && old(m.current) == Some(id) && Lookup(old(m.instances), id).value.isVisible ==>
      err == ErrInvalidState && unchanged(m) && unchanged(m.history)
    ensures Lookup(old(m.instances), id).Some? && !(old(m.current) == Some(id) && Lookup(old(m.instances), id).value.isVisible) ==>
      err == Ok && Lookup(m.instances, id).None?
      && |m.instances| == |old(m.instances)| - 1
      && m.History() == Without(old(m.History()), id)
      && m.current == (if old(m.current) == Some(id) then None else old(m.current))
    ensures forall x :: x != id ==> Lookup(m.instances, x) == Lookup(old(m.instances), x)
    ensures m.screens == old(m.screens) && m.historyIndex == old(m.historyIndex) && m.enableHistory == old(m.enableHistory)
  {
    var index := FindInstance(m, id);
    if index.None? {
      return ErrNotFound;
    }
    var k := index.value;
    var inst := m.instances[k];
    if m.current == Some(id) && inst.isVisible {
      return ErrInvalidState;
    }
    if m.current == Some(id) {
      m.current := None;
    }
    PurgeHistory(m, id);
    forall x
      ensures Lookup(m.instances[..k] + m.instances[k + 1..], x) == if x == id then None else Lookup(m.instances, x)
    {
      LookupRemove(m.instances, k, x);
    }
    LookupRemove(m.instances, k, id);
    if m.current.Some? {
      LookupRemove(m.instances, k, m.current.value);
    }
    m.instances := m.instances[..k] + m.instances[k + 1..];
    return Ok;
  }

  /** screen_hide_instance. */
  method HideInstance(m: Manager, id: string) returns (err: Err)
    requires m.Valid()
    modifies m, m.history
    ensures m.Valid() && m.history == old(m.history)
    ensures err == Ok || err == ErrNotFound
    ensures Lookup(old(m.instances), id).None? ==> err == ErrNotFound && unchanged(m) && unchanged(m.history)
    ensures Lookup(old(m.instances), id).Some? && !Lookup(old(m.instances), id).value.isVisible ==>
      err == Ok && unchanged(m) && unchanged(m.history)
    ensures Lookup(old(m.instances), id).Some? && Lookup(old(m.instances), id).value.isVisible ==>
      var v := Lookup(old(m.instances), id).value;
      err == Ok
      && (v.config.destroyOnHide ==>
            Lookup(m.instances, id).None? && m.History() == Without(old(m.History()), id)
            && m.current == (if old(m.current) == Some(id) then None else old(m.current)))
      && (!v.config.destroyOnHide ==>
            Lookup(m.instances, id) == Some(v.(isVisible := false,
                                               isCached := v.isCached || v.config.cacheOnHide,
                                               group := if v.group.Some? then Some([]) else None))
            && m.History() == old(m.History()) && m.current == old(m.current))
    ensures forall x :: x != id ==> Lookup(m.instances, x) == Lookup(old(m.instances), x)
    ensures m.screens == old(m.screens) && m.historyIndex == old(m.historyIndex) && m.enableHistory == old(m.enableHistory)
  {
    var index := FindInstance(m, id);
    if index.None? {
      return ErrNotFound;
    }
    var k := index.value;
    var inst := m.instances[k];
    if !inst.isVisible {
      return Ok;
    }
    var hidden := inst.(isVisible := false, group := if inst.group.Some? then Some([]) else None);
    if !inst.config.destroyOnHide && inst.config.cacheOnHide {
      hidden := hidden.(isCached := true);
    }
    forall x
      ensures Lookup(m.instances[k := hidden], x) == if x == id then Some(hidden) else Lookup(m.instances, x)
    {
      LookupUpdate(m.instances, k, hidden, x);
    }
    LookupUpdate(m.instances, k, hidden, id);
    if m.current.Some? {
      LookupUpdate(m.instances, k, hidden, m.current.value);
    }
    m.instances := m.instances[k := hidden];
    if inst.config.destroyOnHide {
      err := DestroyInstance(m, id);
    } else {
      err := Ok;
    }
  }

  /** The find-or-create step of screen_show_instance. */
  method EnsureInstance(m: Manager, id: string, uiCreated: bool, groupCreated: bool) returns (err: Err)
    requires m.Valid()
    modifies m
    ensures m.Valid()
    ensures Lookup(old(m.instances), id).Some? ==> err == Ok && unchanged(m)
    ensures Lookup(old(m.instances), id).None? && (!IsValidId(id) || ScreenIndex(m.screens, id).None?) ==>
      err == ErrNotFound && unchanged(m)
    ensures err == Ok ==> Lookup(m.instances, id).Some?
    ensures forall x :: x != id ==> Lookup(m.instances, x) == Lookup(old(m.instances), x)
    ensures err in {Ok, ErrNotFound, ErrNoMem, Fail}
    ensures m.screens == old(m.screens) && m.current == old(m.current) && m.history == old(m.history)
    ensures m.historyCount == old(m.historyCount) && m.historyIndex == old(m.historyIndex)
    ensures m.enableHistory == old(m.enableHistory)
  {
    var index := FindInstance(m, id);
    if index.Some? {
      return Ok;
    }
    var config := m.GetConfig(id);
    if config.None? {
      return ErrNotFound;
    }
    err := CreateInstance(m, id, uiCreated, groupCreated);
    if err != Ok {
      return err;
    }
    index := FindInstance(m, id);
    if index.None? {
      return ErrNotFound;
    }
  }

  /**
   * Whether showing `id` hides a previous screen: there is a current screen,
   * it is another one and it is visible.
   */
  predicate HidesPrevious(xs: seq<Instance>, current: Option<string>, id: string)
  {
    current.Some? && current.value != id && Lookup(xs, current.value).Some? && Lookup(xs, current.value).value.isVisible
  }

  /**
   * The history after showing `id`: hiding a destroy_on_hide previous screen
   * destroys it, and destroying purges it from the history; nothing else
   * touches the history.
   */
  function HistoryAfterShow(h: seq<string>, xs: seq<Instance>, current: Option<string>, id: string): (r: seq<string>)
    ensures |r| <= |h|
  {
    if HidesPrevious(xs, current, id) && Lookup(xs, current.value).value.config.destroyOnHide
    then Without(h, current.value)
    else h
  }

  /** Showing never leaves the destroyed previous screen in the history, and keeps it otherwise. */
  lemma HistoryAfterShowCases(h: seq<string>, xs: seq<Instance>, current: Option<string>, id: string)
    ensures HidesPrevious(xs, current, id) && Lookup(xs, current.value).value.config.destroyOnHide ==>
      forall i :: 0 <= i < |HistoryAfterShow(h, xs, current, id)| ==> HistoryAfterShow(h, xs, current, id)[i] != current.value
    ensures !(HidesPrevious(xs, current, id) && Lookup(xs, current.value).value.config.destroyOnHide) ==>
      HistoryAfterShow(h, xs, current, id) == h
  {
  }

  /** The state a hidden previous screen `v` is left in: gone when destroy_on_hide, else hidden with its group emptied. */
  predicate HiddenAs(xs: seq<Instance>, v: Instance)
  {
    (v.config.destroyOnHide ==> Lookup(xs, v.config.id).None?)
    && (!v.config.destroyOnHide ==> Lookup(xs, v.config.id) == Some(v.(isVisible := false,
                                       isCached := v.isCached || v.config.cacheOnHide,
                                       group := if v.group.Some? then Some([]) else None)))
  }

  /** The hide step of screen_show_instance: a current screen other than `id` is hidden. */
  method HidePrevious(m: Manager, id: string)
    requires m.Valid()
    modifies m, m.history
    ensures m.Valid() && m.history == old(m.history)
    ensures m.History() == HistoryAfterShow(old(m.History()), old(m.instances), old(m.current), id)
    ensures Lookup(m.instances, id) == Lookup(old(m.instances), id)
    ensures HidesPrevious(old(m.instances), old(m.current), id) ==>
      HiddenAs(m.instances, Lookup(old(m.instances), old(m.current).value).value)
    ensures m.screens == old(m.screens) && m.enableHistory == old(m.enableHistory)
  {
    if m.current.Some? && m.current.value != id {
      var _ := HideInstance(m, m.current.value);
    }
  }

  /** The tail of screen_show_instance: hide the previous screen, then make this one visible and current. */
  method Activate(m: Manager, id: string, widgets: seq<nat>)
    requires m.Valid() && Lookup(m.instances, id).Some?
    modifies m, m.history
    ensures m.Valid() && m.history == old(m.history)
    ensures m.current == Some(id) && Lookup(m.instances, id).Some? && Lookup(m.instances, id).value.isVisible
    ensures m.History() == HistoryAfterShow(old(m.History()), old(m.instances), old(m.current), id)
    ensures HidesPrevious(old(m.instances), old(m.current), id) ==>
      HiddenAs(m.instances, Lookup(old(m.instances), old(m.current).value).value)
    ensures m.screens == old(m.screens) && m.enableHistory == old(m.enableHistory)
  {
    ghost var prev := m.current;
    ghost var xs0 := m.instances;
    var inst := Lookup(m.instances, id).value;
    HidePrevious(m, id);
    var k := InstanceIndex(m.instances, id).value;
    var shown := inst.(isVisible := true, group := if inst.group.Some? then Some(widgets) else None);
    LookupUpdate(m.instances, k, shown, id);
    if HidesPrevious(xs0, prev, id) {
      LookupUpdate(m.instances, k, shown, prev.value);
    }
    m.instances := m.instances[k := shown];
    m.current := Some(id);
  }

  /**
   * screen_show_instance.  `uiCreated`/`groupCreated` are the outcomes of
   * creating a missing instance, `canShow` is can_show_fn's answer and
   * `widgets` the interactive widgets the tree walk puts in the group.
   */
  method ShowInstance(m: Manager, id: string, uiCreated: bool, groupCreated: bool,
                      canShow: bool, widgets: seq<nat>) returns (err: Err)
    requires m.Valid()
    modifies m, m.history
    ensures m.Valid() && m.history == old(m.history)
    ensures old(m.current) == Some(id) && Lookup(old(m.instances), id).Some? && Lookup(old(m.instances), id).value.isVisible ==>
      err == Ok && unchanged(m) && unchanged(m.history)
    ensures Lookup(old(m.instances), id).None? && (!IsValidId(id) || ScreenIndex(m.screens, id).None?) ==>
      err == ErrNotFound && unchanged(m) && unchanged(m.history)
    ensures err == Ok ==> m.current == Some(id) && Lookup(m.instances, id).Some? && Lookup(m.instances, id).value.isVisible
    ensures err == ErrNotAllowed ==>
      (Lookup(m.instances, id).Some? && Lookup(m.instances, id).value.config.hasCanShowFn && !canShow)
    ensures Lookup(old(m.instances), id).Some? && Lookup(old(m.instances), id).value.config.hasCanShowFn && !canShow
            && !(old(m.current) == Some(id) && Lookup(old(m.instances), id).value.isVisible) ==>
      err == ErrNotAllowed && unchanged(m) && unchanged(m.history)
    ensures err == Ok ==> m.History() == HistoryAfterShow(old(m.History()), old(m.instances), old(m.current), id)
    ensures err == Ok && HidesPrevious(old(m.instances), old(m.current), id) ==>
      HiddenAs(m.instances, Lookup(old(m.instances), old(m.current).value).value)
    ensures err != Ok ==> m.current == old(m.current) && m.History() == old(m.History())
    ensures m.screens == old(m.screens) && m.enableHistory == old(m.enableHistory)
  {
    if m.current.Some? && m.current.value == id {
      var cur := FindInstance(m, id);
      if cur.Some? && m.instances[cur.value].isVisible {
        return Ok;
      }
    }
    ghost var xs0 := m.instances;
    err := EnsureInstance(m, id, uiCreated, groupCreated);
    if err != Ok {
      return err;
    }
    if m.current.Some? && m.current.value != id {
      assert Lookup(m.instances, m.current.value) == Lookup(xs0, m.current.value);
    }
    assert HistoryAfterShow(m.History(), m.instances, m.current, id) == HistoryAfterShow(m.History(), xs0, m.current, id);
    var inst := Lookup(m.instances, id).value;
    if inst.config.hasCanShowFn && !canShow {
      return ErrNotAllowed;
    }
    Activate(m, id, widgets);
  }

  /**
   * screen_add_to_encoder_group; None as the id means the current screen.
   * A widget already in the group is not added twice.
   */
  method AddToEncoderGroup(m: Manager, id: Option<string>, widget: nat) returns (err: Err)
    requires m.Valid()
    modifies m
    ensures m.Valid()
    ensures var target := if id.Some? then id else m.current;
      (target.None? || Lookup(old(m.instances), target.value).None? ==> err == ErrNotFound && unchanged(m))
      && (target.Some? && Lookup(old(m.instances), target.value).Some? ==>
            var v := Lookup(old(m.instances), target.value).value;
            (v.group.None? ==> err == ErrInvalidState && unchanged(m))
            && (v.group.Some? && widget in v.group.value ==> err == Ok && unchanged(m))
            && (v.group.Some? && widget !in v.group.value ==>
                  err == Ok && Lookup(m.instances, target.value) == Some(v.(group := Some(v.group.value + [widget])))))
    ensures err == Ok ==> var target := if id.Some? then id else m.current;
      target.Some? && Lookup(m.instances, target.value).Some? && Lookup(m.instances, target.value).value.group.Some?
      && widget in Lookup(m.instances, target.value).value.group.value
    ensures m.screens == old(m.screens) && m.current == old(m.current) && m.history == old(m.history)
    ensures m.historyCount == old(m.historyCount)
  {
    var target := if id.Some? then id else m.current;
    if target.None? {
      return ErrNotFound;
    }
    var index := FindInstance(m, target.value);
    if index.None? {
      return ErrNotFound;
    }
    var k := index.value;
    var inst := m.instances[k];
    if inst.group.None? {
      return ErrInvalidState;
    }
    var g := inst.group.value;
    var i := 0;
    while i < |g|
      invariant 0 <= i <= |g|
      invariant forall j :: 0 <= j < i ==> g[j] != widget
    {
      if g[i] == widget {
        return Ok;
      }
      i := i + 1;
    }
    var added := inst.(group := Some(g + [widget]));
    LookupUpdate(m.instances, k, added, target.value);
    if m.current.Some? {
      LookupUpdate(m.instances, k, added, m.current.value);
    }
    m.instances := m.instances[k := added];
    return Ok;
  }
}
