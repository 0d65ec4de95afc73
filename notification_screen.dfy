/**
 * components/lvgl_ui/screens/notification_screen: notifications and errors
 * shown as a screen.  Every request goes through a 5-item queue that the
 * LVGL task drains one item at a time; an item met during the cooldown that
 * follows an OK-close is dropped, except a critical error, which clears the
 * cooldown.  screen_show and screen_go_to_parent are outside this module:
 * the shown items and the number of go-to-parent calls are recorded.
 */
module NotificationScreen {

  import opened Wrappers
  import opened Esp
  import opened Text
  import opened NotificationSystem
  import opened ErrorHandler
  import PopupScreen
  import opened LvEvents

  const QueueSize := 5
  const DefaultCooldownMs := 30000

  /** notif_screen_type_t codes; any other code is treated as an error. */
  const ScreenNotification := 0
  const ScreenError := 1

  /** notif_screen_params_t. */
  datatype Params = Params(kind: nat, timeoutMs: nat, notification: Notification, error: ErrorInfo)

  const BlankParams := Params(ScreenNotification, 0, EmptyNotification, PopupScreen.BlankError)

  /** An OK-close happened less than `cooldownMs` ago (time 0 means never). */
  predicate Cooling(lastCloseMs: int, nowMs: int, cooldownMs: nat)
  {
    lastCloseMs > 0 && nowMs - lastCloseMs < cooldownMs
  }

  /** A queued item that process_queue drops instead of showing. */
  predicate Suppressed(p: Params, lastCloseMs: int, nowMs: int, cooldownMs: nat)
  {
    if p.kind == ScreenNotification then Cooling(lastCloseMs, nowMs, cooldownMs)
    else p.error.level < LevelCritical && Cooling(lastCloseMs, nowMs, cooldownMs)
  }

  /** A critical error is never dropped. */
  lemma CriticalNeverSuppressed(p: Params, lastCloseMs: int, nowMs: int, cooldownMs: nat)
    requires p.kind != ScreenNotification && p.error.level >= LevelCritical
    ensures !Suppressed(p, lastCloseMs, nowMs, cooldownMs)
  {
  }

  /**
   * With the default cooldown and no popup open, the screen drops exactly
   * what the popup would suppress.
   */
  lemma SuppressionAgreesWithPopup(p: Params, lastCloseMs: int, nowMs: int)
    ensures p.kind == ScreenNotification ==>
      (Suppressed(p, lastCloseMs, nowMs, DefaultCooldownMs) <==> !PopupScreen.NotificationAllowed(false, lastCloseMs, nowMs))
    ensures p.kind != ScreenNotification ==>
      (Suppressed(p, lastCloseMs, nowMs, DefaultCooldownMs) <==> !PopupScreen.ErrorAllowed(false, lastCloseMs, nowMs, p.error.level))
  {
  }

  /** get_color. */
  function ScreenColor(p: Params): nat
  {
    if p.kind == ScreenNotification then
      match p.notification.kind
      case Info => 0x4CAF50
      case Warning => 0xFF9800
      case Error => 0xF44336
      case Critical => 0xB71C1C
    else if p.error.level == LevelWarning then 0xFF9800
    else if p.error.level == LevelError then 0xF44336
    else if p.error.level == LevelCritical then 0xB71C1C
    else 0x2196F3
  }

  /** get_icon. */
  function ScreenIcon(p: Params): string
  {
    if p.kind == ScreenNotification then
      match p.notification.kind
      case Info => "OK"
      case Warning => "!"
      case Error => "X"
      case Critical => "X"
    else if p.error.level == LevelError || p.error.level == LevelCritical then "X"
    else "!"
  }

  /** An error shows the colour and icon of the notification the error handler makes of it. */
  lemma ErrorLooksLikeItsNotification(p: Params, q: Params)
    requires p.kind == ScreenError && LevelWarning <= p.error.level <= LevelCritical
    requires q.kind == ScreenNotification && q.notification.kind == TypeOf(p.error.level)
    ensures ScreenColor(p) == ScreenColor(q) && ScreenIcon(p) == ScreenIcon(q)
  {
  }

  /** format_message. */
  function ScreenText(p: Params): string
  {
    if p.kind == ScreenNotification then p.notification.message
    else p.error.component + "\n" + p.error.message + "\nКод: " + IntToString(p.error.code)
  }

  /** The screen and the popup word the same notification or error identically. */
  lemma TextAgreesWithPopup(p: Params, c: PopupScreen.PopupConfig)
    requires p.kind == c.kind && p.kind <= ScreenError
    requires p.notification == c.notification && p.error == c.error
    ensures ScreenText(p) == PopupScreen.PopupText(c)
  {
  }

  class Screen {
    /** The queue exists once the screen is registered. */
    var registered: bool
    var queue: seq<Params>
    var lastCloseMs: int
    var cooldownMs: nat
    /** g_current_ui != NULL. */
    var hasUi: bool
    var params: Params
    var color: nat
    var icon: string
    var text: string
    var timerMs: Option<nat>
    /** Items handed to screen_show("notification", ...), in order. */
    var shown: seq<Params>
    /** screen_go_to_parent calls. */
    var toParent: nat

    predicate Valid()
      reads this
    {
      |queue| <= QueueSize
    }

    constructor()
      ensures Valid() && !registered && queue == [] && lastCloseMs == 0 && cooldownMs == DefaultCooldownMs
      ensures !hasUi && shown == [] && toParent == 0
    {
      registered := false;
      queue := [];
      lastCloseMs := 0;
      cooldownMs := DefaultCooldownMs;
      hasUi := false;
      params := BlankParams;
      color := 0;
      icon := "";
      text := "";
      timerMs := None;
      shown := [];
      toParent := 0;
    }

    /** notification_screen_register: a fresh queue and no cooldown. */
    method Register()
      modifies this
      ensures Valid() && registered && queue == [] && lastCloseMs == 0
      ensures cooldownMs == old(cooldownMs) && shown == old(shown) && toParent == old(toParent)
    {
      queue := [];
      registered := true;
      lastCloseMs := 0;
    }

    /** xQueueSend: the item is queued when there is room, dropped otherwise. */
    method Enqueue(item: Params)
      requires Valid()
      modifies this
      ensures Valid()
      ensures |old(queue)| < QueueSize ==> queue == old(queue) + [item]
      ensures |old(queue)| >= QueueSize ==> queue == old(queue)
      ensures registered == old(registered) && lastCloseMs == old(lastCloseMs) && cooldownMs == old(cooldownMs)
      ensures shown == old(shown) && toParent == old(toParent)
    {
      if |queue| < QueueSize {
        queue := queue + [item];
      }
    }

    /** notification_screen_show: always through the queue. */
    method Show(n: Option<Notification>, timeoutMs: nat)
      requires Valid()
      modifies this
      ensures Valid()
      ensures n.Some? && registered && |old(queue)| < QueueSize ==>
        queue == old(queue) + [Params(ScreenNotification, timeoutMs, n.value, PopupScreen.BlankError)]
      ensures !(n.Some? && registered && |old(queue)| < QueueSize) ==> queue == old(queue)
      ensures registered == old(registered) && lastCloseMs == old(lastCloseMs) && shown == old(shown)
    {
      if n.None? || !registered {
        return;
      }
      Enqueue(Params(ScreenNotification, timeoutMs, n.value, PopupScreen.BlankError));
    }

    /** error_screen_show: always through the queue. */
    method ShowError(e: Option<ErrorInfo>, timeoutMs: nat)
      requires Valid()
      modifies this
      ensures Valid()
      ensures e.Some? && registered && |old(queue)| < QueueSize ==>
        queue == old(queue) + [Params(ScreenError, timeoutMs, EmptyNotification, e.value)]
      ensures !(e.Some? && registered && |old(queue)| < QueueSize) ==> queue == old(queue)
      ensures registered == old(registered) && lastCloseMs == old(lastCloseMs) && shown == old(shown)
    {
      if e.None? || !registered {
        return;
      }
      Enqueue(Params(ScreenError, timeoutMs, EmptyNotification, e.value));
    }

    /** notification_screen_set_cooldown. */
    method SetCooldown(ms: nat)
      requires ms < U32
      modifies this
      ensures cooldownMs == ms
      ensures registered == old(registered) && queue == old(queue) && lastCloseMs == old(lastCloseMs) && shown == old(shown)
    {
      cooldownMs := ms;
    }

    /**
     * notification_screen_process_queue: takes the oldest item and shows it
     * unless the cooldown drops it; `showResult` is what screen_show returns.
     */
    method ProcessQueue(nowMs: int, showResult: Err) returns (err: Err)
      requires Valid()
      modifies this
      ensures Valid()
      ensures !old(registered) ==> err == ErrInvalidState && queue == old(queue) && shown == old(shown)
      ensures old(registered) && old(queue) == [] ==> err == ErrNotFound && queue == [] && shown == old(shown)
      ensures old(registered) && old(queue) != [] ==>
        var item := old(queue)[0];
        && queue == old(queue)[1..]
        && (Suppressed(item, old(lastCloseMs), nowMs, cooldownMs) ==>
              err == Ok && shown == old(shown) && lastCloseMs == old(lastCloseMs))
        && (!Suppressed(item, old(lastCloseMs), nowMs, cooldownMs) ==>
              err == showResult && shown == old(shown) + [item]
              && lastCloseMs == (if item.kind != ScreenNotification && item.error.level >= LevelCritical then 0 else old(lastCloseMs)))
      ensures registered == old(registered) && cooldownMs == old(cooldownMs) && toParent == old(toParent)
    {
      if !registered {
        return ErrInvalidState;
      }
      if queue == [] {
        return ErrNotFound;
      }
      var item := queue[0];
      queue := queue[1..];
      var sinceClose := nowMs - lastCloseMs;
      if item.kind == ScreenNotification {
        if lastCloseMs > 0 && sinceClose < cooldownMs {
          return Ok;
        }
      } else {
        if item.error.level < LevelCritical && lastCloseMs > 0 && sinceClose < cooldownMs {
          return Ok;
        }
        if item.error.level >= LevelCritical {
          lastCloseMs := 0;
        }
      }
      shown := shown + [item];
      return showResult;
    }

    /** notif_screen_create: the UI exists with cleared params. */
    method Create()
      modifies this
      ensures hasUi && params == BlankParams && timerMs == None
      ensures registered == old(registered) && queue == old(queue) && lastCloseMs == old(lastCloseMs) && shown == old(shown)
    {
      hasUi := true;
      params := BlankParams;
      timerMs := None;
    }

    /** notif_screen_on_show: copies the parameters and fills the labels; no UI data is INVALID_STATE. */
    method OnShow(userData: Option<Params>) returns (err: Err)
      modifies this
      ensures userData.None? ==> err == ErrInvalidArg && params == old(params)
      ensures userData.Some? && !hasUi ==> err == ErrInvalidState && params == old(params)
      ensures userData.Some? && hasUi ==>
        var p := userData.value;
        && err == Ok && params == p
        && color == ScreenColor(p) && icon == ScreenIcon(p) && text == ScreenText(p)
        && timerMs == (if p.timeoutMs > 0 then Some(p.timeoutMs) else old(timerMs))
      ensures hasUi == old(hasUi) && registered == old(registered) && queue == old(queue) && lastCloseMs == old(lastCloseMs)
    {
      if userData.None? {
        return ErrInvalidArg;
      }
      if !hasUi {
        return ErrInvalidState;
      }
      var p := userData.value;
      params := p;
      color := ScreenColor(p);
      icon := ScreenIcon(p);
      text := ScreenText(p);
      if p.timeoutMs > 0 {
        timerMs := Some(p.timeoutMs);
      }
      return Ok;
    }

    /** notif_screen_on_hide: the timer and the UI data are released. */
    method OnHide() returns (err: Err)
      modifies this
      ensures err == Ok && !hasUi && (old(hasUi) ==> timerMs == None)
      ensures registered == old(registered) && queue == old(queue) && lastCloseMs == old(lastCloseMs) && shown == old(shown)
    {
      if hasUi {
        timerMs := None;
      }
      hasUi := false;
      return Ok;
    }

    /** ok_button_cb: only CLICKED closes, records the close time and returns to the parent. */
    method OkButton(e: ButtonEvent, nowMs: int)
      modifies this
      ensures e == Clicked ==> lastCloseMs == nowMs && toParent == old(toParent) + 1
      ensures e != Clicked ==> lastCloseMs == old(lastCloseMs) && toParent == old(toParent)
      ensures registered == old(registered) && queue == old(queue) && cooldownMs == old(cooldownMs) && shown == old(shown)
    {
      if e == Clicked {
        lastCloseMs := nowMs;
        toParent := toParent + 1;
      }
    }

    /** close_timer_cb: returns to the parent without starting the cooldown. */
    method CloseTimer()
      modifies this
      ensures toParent == old(toParent) + 1 && lastCloseMs == old(lastCloseMs)
      ensures registered == old(registered) && queue == old(queue) && shown == old(shown)
    {
      toParent := toParent + 1;
    }
  }
}
