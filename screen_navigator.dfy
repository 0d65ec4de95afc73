/**
 * Navigation of components/lvgl_ui/screen_manager/screen_navigator.c: the
 * 10-entry history stack of the shared manager record and the show, back,
 * parent and home moves built on it.
 */
module ScreenNavigator {

  import opened Wrappers
  import opened Esp
  import opened Seqs
  import opened ScreenRegistry
  import opened ScreenLifecycle

  /** What the history of a failed navigator_show becomes, as written: push the current screen, then pop. */
  function ShowFailureHistoryAsWritten(h: seq<string>, current: Option<string>, enabled: bool): (r: seq<string>)
    requires |h| <= MaxHistory
  {
    var pushed := if enabled && current.Some? then PushBounded(h, current.value, MaxHistory) else h;
    if pushed == [] then [] else pushed[..|pushed| - 1]
  }

  /** With no current screen nothing is pushed, yet the pop still removes the newest entry. */
  lemma ShowFailureLosesEntryWithoutCurrent()
    ensures ShowFailureHistoryAsWritten(["main"], None, true) == []
  {
  }

  /** With a full history the push drops the oldest entry, which the pop does not bring back. */
  lemma ShowFailureLosesOldestWhenFull(h: seq<string>, c: string)
    requires |h| == MaxHistory
    ensures ShowFailureHistoryAsWritten(h, Some(c), true) == h[1..]
    ensures ShowFailureHistoryAsWritten(h, Some(c), true) != h
  {
  }

  /** Below capacity the rollback is exact when something was pushed. */
  lemma ShowFailureRestoresBelowCapacity(h: seq<string>, c: string)
    requires |h| < MaxHistory
    ensures ShowFailureHistoryAsWritten(h, Some(c), true) == h
  {
    assert PushBounded(h, c, MaxHistory) == h + [c];
    assert (h + [c])[..|h|] == h;
  }

  /** The memmove of push_history on a full stack: every entry moves one slot towards the bottom. */
  method ShiftDown(a: array<string>)
    requires a.Length >= 1
    modifies a
    ensures forall j :: 0 <= j < a.Length - 1 ==> a[j] == old(a[j + 1])
    ensures a[a.Length - 1] == old(a[a.Length - 1])
  {
    for i := 0 to a.Length - 1
      invariant forall j :: 0 <= j < i ==> a[j] == old(a[j + 1])
      invariant forall j :: i <= j < a.Length ==> a[j] == old(a[j])
    {
      a[i] := a[i + 1];
    }
  }

  /** push_history.  None is a NULL instance. */
  method PushHistory(m: Manager, inst: Option<string>) returns (err: Err)
    requires m.Valid()
    modifies m, m.history
    ensures m.Valid() && m.history == old(m.history)
    ensures !m.enableHistory ==> err == Ok && unchanged(m) && unchanged(m.history)
    ensures m.enableHistory && inst.None? ==> err == ErrInvalidArg && unchanged(m) && unchanged(m.history)
    ensures m.enableHistory && inst.Some? ==>
      err == Ok && m.History() == PushBounded(old(m.History()), inst.value, MaxHistory)
      && m.historyIndex == m.historyCount - 1
    ensures m.screens == old(m.screens) && m.instances == old(m.instances) && m.current == old(m.current)
    ensures m.enableHistory == old(m.enableHistory)
  {
    if !m.enableHistory {
      return Ok;
    }
    if inst.None? {
      return ErrInvalidArg;
    }
    ghost var before := m.History();
    var a := m.history;
    if m.historyCount >= MaxHistory {
      ShiftDown(a);
      m.historyCount := MaxHistory - 1;
      assert a[..m.historyCount] == before[1..];
    }
    a[m.historyCount] := inst.value;
    m.historyCount := m.historyCount + 1;
    m.historyIndex := m.historyCount - 1;
    assert m.History() == PushBounded(before, inst.value, MaxHistory);
    return Ok;
  }

  /** pop_history: LIFO; the freed slot is cleared. */
  method PopHistory(m: Manager) returns (inst: Option<string>)
    requires m.Valid()
    modifies m, m.history
    ensures m.Valid() && m.history == old(m.history)
    ensures old(m.historyCount) == 0 ==> inst.None? && unchanged(m) && unchanged(m.history)
    ensures old(m.historyCount) > 0 ==>
      inst == Some(old(m.History())[old(m.historyCount) - 1])
      && m.History() == old(m.History())[..old(m.historyCount) - 1]
      && m.history[m.historyCount] == ""
      && m.historyIndex == (if m.historyCount > 0 then m.historyCount - 1 else 0)
    ensures m.screens == old(m.screens) && m.instances == old(m.instances) && m.current == old(m.current)
    ensures m.enableHistory == old(m.enableHistory)
  {
    if m.historyCount == 0 {
      return None;
    }
    m.historyCount := m.historyCount - 1;
    inst := Some(m.history[m.historyCount]);
    m.history[m.historyCount] := "";
    if m.historyCount > 0 {
      m.historyIndex := m.historyCount - 1;
    } else {
      m.historyIndex := 0;
    }
  }

  /** Writes a saved history back (the rollback of NavigatorShow). */
  method RestoreHistory(m: Manager, saved: seq<string>)
    requires m.Valid() && |saved| <= MaxHistory
    modifies m, m.history
    ensures m.Valid() && m.history == old(m.history) && m.History() == saved
    ensures m.historyIndex == (if |saved| > 0 then |saved| - 1 else 0)
    ensures m.screens == old(m.screens) && m.instances == old(m.instances) && m.current == old(m.current)
    ensures m.enableHistory == old(m.enableHistory)
  {
    var a := m.history;
    for i := 0 to |saved|
      modifies a
      invariant forall j :: 0 <= j < i ==> a[j] == saved[j]
    {
      a[i] := saved[i];
    }
    m.historyCount := |saved|;
    m.historyIndex := if |saved| > 0 then |saved| - 1 else 0;
    assert a[..|saved|] == saved;
  }

  /**
   * navigator_show with its rollback corrected: the current screen is pushed
   * first, and a failed show restores the history exactly as it was.
   * The last four parameters are the outcomes screen_show_instance depends on.
   */
  method NavigatorShow(m: Manager, id: string, uiCreated: bool, groupCreated: bool,
                       canShow: bool, widgets: seq<nat>) returns (err: Err)
    requires m.Valid()
    modifies m, m.history
    ensures m.Valid() && m.history == old(m.history)
    ensures err == Ok ==> m.current == Some(id) && Lookup(m.instances, id).Some? && Lookup(m.instances, id).value.isVisible
    ensures err == Ok ==>
      var pushed := if old(m.current).Some? && m.enableHistory
                    then PushBounded(old(m.History()), old(m.current).value, MaxHistory) else old(m.History());
      m.History() == HistoryAfterShow(pushed, old(m.instances), old(m.current), id)
    ensures err != Ok ==> m.History() == old(m.History()) && m.current == old(m.current)
    ensures m.screens == old(m.screens) && m.enableHistory == old(m.enableHistory)
  {
    var saved := m.History();
    if m.current.Some? {
      var _ := PushHistory(m, m.current);
    }
    err := ShowInstance(m, id, uiCreated, groupCreated, canShow, widgets);
    if err != Ok {
      RestoreHistory(m, saved);
    }
  }

  /** navigator_go_back: show the popped screen without pushing; on failure push it back. */
  method GoBack(m: Manager, uiCreated: bool, groupCreated: bool, canShow: bool, widgets: seq<nat>) returns (err: Err)
    requires m.Valid()
    modifies m, m.history
    ensures m.Valid() && m.history == old(m.history)
    ensures old(m.historyCount) == 0 ==> err == ErrInvalidState && unchanged(m) && unchanged(m.history)
    ensures old(m.historyCount) > 0 && err == Ok ==>
      var prev := old(m.History())[old(m.historyCount) - 1];
      m.current == Some(prev)
      && m.History() == HistoryAfterShow(old(m.History())[..old(m.historyCount) - 1], old(m.instances), old(m.current), prev)
    ensures old(m.historyCount) > 0 && err != Ok ==>
      m.History() == (if m.enableHistory then old(m.History()) else old(m.History())[..old(m.historyCount) - 1])
      && m.current == old(m.current)
    ensures m.screens == old(m.screens) && m.enableHistory == old(m.enableHistory)
  {
    if m.historyCount == 0 {
      return ErrInvalidState;
    }
    ghost var before := m.History();
    var prev := PopHistory(m);
    if prev.None? {
      return ErrInvalidState;
    }
    err := ShowInstance(m, prev.value, uiCreated, groupCreated, canShow, widgets);
    if err != Ok {
      var _ := PushHistory(m, prev);
      assert m.enableHistory ==> m.History() == before by {
        if m.enableHistory {
          assert before == before[..|before| - 1] + [prev.value];
        }
      }
    }
  }

  /** navigator_go_to_parent: needs a current screen, can_go_back and a non-empty parent id. */
  method GoToParent(m: Manager, uiCreated: bool, groupCreated: bool, canShow: bool, widgets: seq<nat>) returns (err: Err)
    requires m.Valid()
    modifies m, m.history
    ensures m.Valid() && m.history == old(m.history)
    ensures old(m.current).None? ==> err == ErrInvalidState && unchanged(m) && unchanged(m.history)
    ensures old(m.current).Some? ==>
      var c := Lookup(old(m.instances), old(m.current).value).value.config;
      (!c.canGoBack || c.parentId == [] ==> err == ErrNotSupported && unchanged(m) && unchanged(m.history))
      && (err == Ok ==> m.current == Some(c.parentId))
    ensures old(m.current).Some? && err == Ok ==>
      var c := Lookup(old(m.instances), old(m.current).value).value.config;
      var pushed := if m.enableHistory then PushBounded(old(m.History()), old(m.current).value, MaxHistory)
                    else old(m.History());
      m.History() == HistoryAfterShow(pushed, old(m.instances), old(m.current), c.parentId)
    ensures err != Ok ==> m.History() == old(m.History()) && m.current == old(m.current)
  {
    if m.current.None? {
      return ErrInvalidState;
    }
    var index := FindInstance(m, m.current.value);
    var config := m.instances[index.value].config;
    if !config.canGoBack || |config.parentId| == 0 {
      return ErrNotSupported;
    }
    err := NavigatorShow(m, config.parentId, uiCreated, groupCreated, canShow, widgets);
  }

  /** The first registered root screen, if any. */
  function FirstRoot(xs: seq<ScreenConfig>): (r: Option<nat>)
    ensures r.Some? ==> r.value < |xs| && xs[r.value].isRoot && forall j :: 0 <= j < r.value ==> !xs[j].isRoot
    ensures r.None? ==> forall j :: 0 <= j < |xs| ==> !xs[j].isRoot
  {
    if xs == [] then None
    else if xs[0].isRoot then Some(0)
    else match FirstRoot(xs[1..])
      case Some(k) => Some(k + 1)
      case None => None
  }

  lemma {:induction false} FirstRootIs(xs: seq<ScreenConfig>, i: nat)
    requires i < |xs| && xs[i].isRoot && forall j :: 0 <= j < i ==> !xs[j].isRoot
    ensures FirstRoot(xs) == Some(i)
  {
    if i > 0 {
      FirstRootIs(xs[1..], i - 1);
    }
  }

  /** navigator_clear_history. */
  method ClearHistory(m: Manager)
    requires m.Valid()
    modifies m, m.history
    ensures m.Valid() && m.history == old(m.history)
    ensures m.History() == [] && m.historyIndex == 0
    ensures forall i :: 0 <= i < m.history.Length ==> m.history[i] == ""
    ensures m.screens == old(m.screens) && m.instances == old(m.instances) && m.current == old(m.current)
    ensures m.enableHistory == old(m.enableHistory)
  {
    var a := m.history;
    for i := 0 to a.Length
      modifies a
      invariant forall j :: 0 <= j < i ==> a[j] == ""
    {
      a[i] := "";
    }
    m.historyCount := 0;
    m.historyIndex := 0;
  }

  /** navigator_go_home: clear the history and show the first root screen. */
  method GoHome(m: Manager, uiCreated: bool, groupCreated: bool, canShow: bool, widgets: seq<nat>) returns (err: Err)
    requires m.Valid()
    modifies m, m.history
    ensures m.Valid() && m.history == old(m.history)
    ensures FirstRoot(old(m.screens)).None? ==> err == ErrNotFound && unchanged(m) && unchanged(m.history)
    ensures FirstRoot(old(m.screens)).Some? ==>
      (err == Ok ==> m.current == Some(old(m.screens)[FirstRoot(old(m.screens)).value].id))
      && m.History() == []
  {
    var i := 0;
    while i < |m.screens|
      invariant 0 <= i <= |m.screens|
      invariant forall j :: 0 <= j < i ==> !m.screens[j].isRoot
    {
      if m.screens[i].isRoot {
        FirstRootIs(m.screens, i);
        var rootId := m.screens[i].id;
        ClearHistory(m);
        err := ShowInstance(m, rootId, uiCreated, groupCreated, canShow, widgets);
        return;
      }
      i := i + 1;
    }
    return ErrNotFound;
  }
}
