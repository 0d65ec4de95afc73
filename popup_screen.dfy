/**
 * components/lvgl_ui/screens/popup_screen: the single popup that shows a
 * notification or an error.  At most one popup is open; a popup closed with
 * OK starts a 30-second cooldown during which new notifications and
 * non-critical errors are suppressed; a critical error bypasses the cooldown
 * and replaces an open popup.  screen_show, screen_go_back and the LVGL
 * widgets are outside this module: the requests and the number of
 * go-back calls are recorded, the widget contents are fields.
 */
module PopupScreen {

  import opened Wrappers
  import opened Esp
  import opened Text
  import opened NotificationSystem
  import opened ErrorHandler
  import opened LvEvents

  const CooldownMs := 30000

  /** popup_type_t codes. */
  const KindNotification := 0
  const KindError := 1

  /** popup_config_t; `kind` is the popup_type_t code, so a memset-zero config reads as a notification. */
  datatype PopupConfig = PopupConfig(kind: nat, notification: Notification, error: ErrorInfo,
                                     timeoutMs: nat, hasOkButton: bool)

  const BlankError := ErrorInfo(0, 0, 0, "", 0, "")
  const BlankConfig := PopupConfig(KindNotification, EmptyNotification, BlankError, 0, false)

  /** The LV_SYMBOL_* icons the popup uses. */
  datatype Icon = SymbolOk | SymbolWarning | SymbolClose | SymbolBell | SymbolList | SymbolDummy

  /** A new notification may open a popup: none is open, and no OK-close happened in the last 30 s. */
  predicate NotificationAllowed(open: bool, lastCloseMs: int, nowMs: int)
  {
    !open && !(lastCloseMs > 0 && nowMs - lastCloseMs < CooldownMs)
  }

  /** A new error may open a popup: always when critical, otherwise under the notification rule. */
  predicate ErrorAllowed(open: bool, lastCloseMs: int, nowMs: int, level: nat)
  {
    level >= LevelCritical || NotificationAllowed(open, lastCloseMs, nowMs)
  }

  /** An OK close at `closeMs` suppresses exactly the next 30 s, unless nothing was ever closed (time 0). */
  lemma CooldownWindow(closeMs: int, nowMs: int)
    requires closeMs > 0 && nowMs >= closeMs
    ensures NotificationAllowed(false, closeMs, nowMs) <==> nowMs >= closeMs + CooldownMs
  {
  }

  /** Errors below CRITICAL obey the notification rule; critical errors are never suppressed. */
  lemma ErrorRule(open: bool, lastCloseMs: int, nowMs: int, level: nat)
    ensures level < LevelCritical ==> (ErrorAllowed(open, lastCloseMs, nowMs, level) <==> NotificationAllowed(open, lastCloseMs, nowMs))
    ensures level >= LevelCritical ==> ErrorAllowed(open, lastCloseMs, nowMs, level)
  {
  }

  /** get_popup_color for a notification popup. */
  function NotificationColor(t: NotifType): nat
  {
    match t
    case Info => 0x4CAF50
    case Warning => 0xFFA726
    case Error => 0xF44336
    case Critical => 0xD32F2F
  }

  /** get_popup_color for an error popup. */
  function ErrorColor(level: nat): nat
  {
    if level == LevelDebug then 0x9E9E9E
    else if level == LevelInfo then 0x4CAF50
    else if level == LevelWarning then 0xFFA726
    else if level == LevelError then 0xF44336
    else if level == LevelCritical then 0xD32F2F
    else 0x607D8B
  }

  /** get_popup_color: grey for an unknown popup type. */
  function PopupColor(c: PopupConfig): nat
  {
    if c.kind == KindNotification then NotificationColor(c.notification.kind)
    else if c.kind == KindError then ErrorColor(c.error.level)
    else 0x607D8B
  }

  function NotificationIcon(t: NotifType): Icon
  {
    match t
    case Info => SymbolOk
    case Warning => SymbolWarning
    case Error => SymbolClose
    case Critical => SymbolWarning
  }

  function ErrorIcon(level: nat): Icon
  {
    if level == LevelDebug then SymbolList
    else if level == LevelInfo then SymbolOk
    else if level == LevelWarning then SymbolWarning
    else if level == LevelError then SymbolClose
    else if level == LevelCritical then SymbolWarning
    else SymbolDummy
  }

  /** get_popup_icon. */
  function PopupIcon(c: PopupConfig): Icon
  {
    if c.kind == KindNotification then NotificationIcon(c.notification.kind)
    else if c.kind == KindError then ErrorIcon(c.error.level)
    else SymbolDummy
  }

  /**
   * An error popup of level INFO to CRITICAL looks like the popup of the
   * notification the error handler makes of it: same colour, same icon.
   */
  lemma ErrorLooksLikeItsNotification(level: nat)
    requires LevelInfo <= level <= LevelCritical
    ensures ErrorColor(level) == NotificationColor(TypeOf(level))
    ensures ErrorIcon(level) == NotificationIcon(TypeOf(level))
  {
  }

  /** Severity shows in the colour: the five error levels have five different colours. */
  lemma ErrorColorsDistinct(a: nat, b: nat)
    requires a <= LevelCritical && b <= LevelCritical && a != b
    ensures ErrorColor(a) != ErrorColor(b)
  {
  }

  /** format_popup_message: "component\nmessage\nКод: code" for an error. */
  function PopupText(c: PopupConfig): (s: string)
    ensures c.kind == KindError ==> s == c.error.component + "\n" + c.error.message + "\nКод: " + IntToString(c.error.code)
    ensures c.kind == KindNotification ==> s == c.notification.message
  {
    if c.kind == KindNotification then c.notification.message
    else if c.kind == KindError then c.error.component + "\n" + c.error.message + "\nКод: " + IntToString(c.error.code)
    else "Unknown"
  }

  /** The code in an error popup's text determines the code. */
  lemma PopupTextKeepsCode(c: PopupConfig, d: PopupConfig)
    requires c.kind == KindError && d.kind == KindError
    requires c.error.component == d.error.component && c.error.message == d.error.message
    requires PopupText(c) == PopupText(d)
    ensures c.error.code == d.error.code
  {
    var p := c.error.component + "\n" + c.error.message + "\nКод: ";
    assert PopupText(c) == p + IntToString(c.error.code);
    assert PopupText(d) == p + IntToString(d.error.code);
    assert IntToString(c.error.code) == PopupText(c)[|p|..];
    assert IntToString(d.error.code) == PopupText(d)[|p|..];
    IntToStringInjective(c.error.code, d.error.code);
  }

  /**
   * The check popup_on_show uses to ignore a repeated call: a configured
   * popup is one whose type code is not 0.
   */
  predicate RepeatIgnoredAsWritten(config: PopupConfig)
  {
    config.kind != 0
  }

  /**
   * Because POPUP_TYPE_NOTIFICATION is 0, a popup already configured as a
   * notification does not pass the check: a repeated on_show copies (and
   * frees) the user data again.
   */
  lemma NotificationRepeatNotIgnored(n: Notification, timeoutMs: nat)
    ensures !RepeatIgnoredAsWritten(PopupConfig(KindNotification, n, BlankError, timeoutMs, true))
  {
  }

  class Popup {
    /** g_current_popup != NULL. */
    var open: bool
    /** Whether on_show has filled the config (a flag of its own, not the type code). */
    var configured: bool
    var config: PopupConfig
    var lastCloseMs: int
    var okVisible: bool
    var timerMs: Option<nat>
    var color: nat
    var icon: Icon
    var text: string
    /** screen_show("popup", config) requests, in order. */
    var requests: seq<PopupConfig>
    /** screen_go_back calls. */
    var goBacks: nat

    predicate Valid()
      reads this
    {
      !open ==> !configured
    }

    constructor()
      ensures Valid() && !open && !configured && lastCloseMs == 0 && requests == [] && goBacks == 0
    {
      open := false;
      configured := false;
      config := BlankConfig;
      lastCloseMs := 0;
      okVisible := false;
      timerMs := None;
      color := 0;
      icon := SymbolDummy;
      text := "";
      requests := [];
      goBacks := 0;
    }

    /** popup_close: records the close time (starting the cooldown) and goes back. */
    method Close(nowMs: int)
      modifies this
      ensures lastCloseMs == nowMs && goBacks == old(goBacks) + 1
      ensures open == old(open) && configured == old(configured) && config == old(config) && requests == old(requests)
    {
      lastCloseMs := nowMs;
      goBacks := goBacks + 1;
    }

    /** popup_show_notification. */
    method ShowNotification(n: Option<Notification>, timeoutMs: nat, nowMs: int)
      requires Valid()
      modifies this
      ensures Valid()
      ensures n.Some? && NotificationAllowed(old(open), old(lastCloseMs), nowMs) ==>
        requests == old(requests) + [PopupConfig(KindNotification, n.value, BlankError, timeoutMs, true)]
      ensures !(n.Some? && NotificationAllowed(old(open), old(lastCloseMs), nowMs)) ==> requests == old(requests)
      ensures open == old(open) && configured == old(configured) && lastCloseMs == old(lastCloseMs) && goBacks == old(goBacks)
    {
      if n.None? {
        return;
      }
      if open {
        return;
      }
      var sinceClose := nowMs - lastCloseMs;
      if lastCloseMs > 0 && sinceClose < CooldownMs {
        return;
      }
      requests := requests + [PopupConfig(KindNotification, n.value, BlankError, timeoutMs, true)];
    }

    /**
     * popup_show_error.  A critical error clears the close time first; when
     * a popup is open it is then closed, which records the close time again.
     */
    method ShowError(e: Option<ErrorInfo>, timeoutMs: nat, nowMs: int)
      requires Valid()
      modifies this
      ensures Valid()
      ensures e.Some? && ErrorAllowed(old(open), old(lastCloseMs), nowMs, e.value.level) ==>
        requests == old(requests) + [PopupConfig(KindError, BlankConfig.notification, e.value, timeoutMs, e.value.level >= LevelError)]
      ensures !(e.Some? && ErrorAllowed(old(open), old(lastCloseMs), nowMs, e.value.level)) ==>
        requests == old(requests) && lastCloseMs == old(lastCloseMs) && goBacks == old(goBacks)
      ensures e.Some? && e.value.level >= LevelCritical ==>
        && lastCloseMs == (if old(open) then nowMs else 0)
        && goBacks == old(goBacks) + (if old(open) then 1 else 0)
      ensures e.Some? && e.value.level < LevelCritical ==> lastCloseMs == old(lastCloseMs) && goBacks == old(goBacks)
      ensures open == old(open) && configured == old(configured)
    {
      if e.None? {
        return;
      }
      var err := e.value;
      if open && err.level < LevelCritical {
        return;
      }
      var sinceClose := nowMs - lastCloseMs;
      if err.level < LevelCritical && lastCloseMs > 0 && sinceClose < CooldownMs {
        return;
      }
      if err.level >= LevelCritical {
        lastCloseMs := 0;
        if open {
          Close(nowMs);
        }
      }
      requests := requests + [PopupConfig(KindError, BlankConfig.notification, err, timeoutMs, err.level >= LevelError)];
    }

    /** popup_create: the popup exists, with a blank config. */
    method Create()
      modifies this
      ensures Valid() && open && !configured && config == BlankConfig
      ensures lastCloseMs == old(lastCloseMs) && requests == old(requests) && goBacks == old(goBacks)
    {
      open := true;
      configured := false;
      config := BlankConfig;
      timerMs := None;
    }

    /** popup_on_show: configures the popup once; a repeated call is ignored. */
    method OnShow(userData: Option<PopupConfig>) returns (err: Err)
      requires Valid()
      modifies this
      ensures Valid()
      ensures !old(open) ==> err == ErrInvalidArg && config == old(config)
      ensures old(open) && old(configured) ==> err == Ok && config == old(config) && timerMs == old(timerMs)
      ensures old(open) && !old(configured) && userData.None? ==> err == ErrInvalidArg && !configured
      ensures old(open) && !old(configured) && userData.Some? ==>
        var c := userData.value;
        && err == Ok && configured && config == c
        && color == PopupColor(c) && icon == PopupIcon(c) && text == PopupText(c)
        && okVisible == c.hasOkButton
        && timerMs == (if c.timeoutMs > 0 then Some(c.timeoutMs) else None)
      ensures open == old(open) && lastCloseMs == old(lastCloseMs) && requests == old(requests) && goBacks == old(goBacks)
    {
      if !open {
        return ErrInvalidArg;
      }
      if configured {
        return Ok;
      }
      if userData.None? {
        return ErrInvalidArg;
      }
      var c := userData.value;
      config := c;
      configured := true;
      color := PopupColor(c);
      icon := PopupIcon(c);
      text := PopupText(c);
      okVisible := c.hasOkButton;
      timerMs := if c.timeoutMs > 0 then Some(c.timeoutMs) else None;
      return Ok;
    }

    /** popup_on_hide: the popup is gone and its config cleared. */
    method OnHide() returns (err: Err)
      modifies this
      ensures Valid() && err == Ok && !open && !configured && config == BlankConfig && timerMs == None
      ensures lastCloseMs == old(lastCloseMs) && requests == old(requests) && goBacks == old(goBacks)
    {
      open := false;
      configured := false;
      config := BlankConfig;
      timerMs := None;
      return Ok;
    }

    /** ok_button_cb: click, press or ENTER closes the popup and starts the cooldown. */
    method OkButton(e: ButtonEvent, nowMs: int)
      modifies this
      ensures Activates(e) ==> lastCloseMs == nowMs && goBacks == old(goBacks) + 1
      ensures !Activates(e) ==> lastCloseMs == old(lastCloseMs) && goBacks == old(goBacks)
      ensures open == old(open) && configured == old(configured) && config == old(config) && requests == old(requests)
    {
      if Activates(e) {
        Close(nowMs);
      }
    }

    /** close_timer_cb: goes back without starting the cooldown. */
    method CloseTimer()
      modifies this
      ensures goBacks == old(goBacks) + 1 && lastCloseMs == old(lastCloseMs)
      ensures open == old(open) && configured == old(configured) && config == old(config) && requests == old(requests)
    {
      goBacks := goBacks + 1;
    }
  }
}
