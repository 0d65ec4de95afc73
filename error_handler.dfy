/**
 * components/error_handler: the central error report.  A report is counted
 * by level, turned into a notification from WARNING up, shown as a popup
 * from ERROR up (directly, or deferred through a 10-item queue when it comes
 * from a sensor, I2C or system task), and handed to a registered callback.
 * The notification system, the popup screen and the callback are outside
 * this module: what is handed to each is appended to a log.
 */
module ErrorHandler {

  import opened Wrappers
  import opened Esp
  import opened Seqs
  import opened NotificationSystem

  /** error_level_t codes. */
  const LevelDebug := 0
  const LevelInfo := 1
  const LevelWarning := 2
  const LevelError := 3
  const LevelCritical := 4

  /** error_category_t codes. */
  const CategoryI2c := 0
  const CategorySensor := 1
  const CategoryDisplay := 2
  const CategoryStorage := 3
  const CategorySystem := 4
  const CategoryPump := 5
  const CategoryRelay := 6
  const CategoryController := 7
  const CategoryNetwork := 8
  const CategoryOther := 9

  const QueueCapacity := 10
  const ErrorMessageMax := 127
  const ComponentMax := 31
  const NotificationMax := 159
  const NotificationMessagePart := 90
  const U32 := 0x1_0000_0000

  /** error_info_t. */
  datatype ErrorInfo = ErrorInfo(category: nat, level: nat, code: int, message: string,
                                 timestampS: nat, component: string)

  /** What notification_create is asked to create. */
  datatype NotificationRequest = NotificationRequest(kind: NotifType, priority: NotifPriority,
                                                     source: NotifSource, text: string)

  /** A popup request: the error and its timeout in milliseconds. */
  datatype PopupRequest = PopupRequest(error: ErrorInfo, timeoutMs: nat)

  /** The six counters of g_stats. */
  datatype Stats = Stats(total: nat, critical: nat, errors: nat, warnings: nat, info: nat, debug: nat)

  const ZeroStats := Stats(0, 0, 0, 0, 0, 0)

  function Classified(s: Stats): nat
  {
    s.critical + s.errors + s.warnings + s.info + s.debug
  }

  /** Statistics after one report: the total and the counter of the level, if the level is known. */
  function Counted(s: Stats, level: nat): (r: Stats)
    ensures r.total == s.total + 1
    ensures Classified(r) == Classified(s) + (if level <= LevelCritical then 1 else 0)
    ensures level == LevelCritical <==> r.critical == s.critical + 1
    ensures level == LevelError <==> r.errors == s.errors + 1
    ensures level == LevelWarning <==> r.warnings == s.warnings + 1
    ensures level == LevelInfo <==> r.info == s.info + 1
    ensures level == LevelDebug <==> r.debug == s.debug + 1
  {
    var t := s.(total := s.total + 1);
    if level == LevelDebug then t.(debug := s.debug + 1)
    else if level == LevelInfo then t.(info := s.info + 1)
    else if level == LevelWarning then t.(warnings := s.warnings + 1)
    else if level == LevelError then t.(errors := s.errors + 1)
    else if level == LevelCritical then t.(critical := s.critical + 1)
    else t
  }

  /** Counting never lets the classified counters overtake the total. */
  lemma CountedKeepsTotalBound(s: Stats, level: nat)
    requires Classified(s) <= s.total
    ensures Classified(Counted(s, level)) <= Counted(s, level).total
    ensures level <= LevelCritical && Classified(s) == s.total ==> Classified(Counted(s, level)) == Counted(s, level).total
  {
  }

  /** Notification type of a level. */
  function TypeOf(level: nat): (t: NotifType)
    ensures t == Warning <==> level == LevelWarning
    ensures t == Error <==> level == LevelError
    ensures t == Critical <==> level == LevelCritical
    ensures t == Info <==> (level < LevelWarning || level > LevelCritical)
  {
    if level == LevelWarning then Warning
    else if level == LevelError then Error
    else if level == LevelCritical then Critical
    else Info
  }

  /** Notification priority of a level. */
  function PriorityOf(level: nat): (p: NotifPriority)
    ensures p == High <==> level == LevelError
    ensures p == Urgent <==> level == LevelCritical
    ensures p == Normal <==> (level != LevelError && level != LevelCritical)
  {
    if level == LevelError then High
    else if level == LevelCritical then Urgent
    else Normal
  }

  /** Notification source of a category. */
  function SourceOf(category: nat): (src: NotifSource)
    ensures src == Sensor <==> category == CategorySensor
    ensures src == Pump <==> category == CategoryPump
    ensures src == Relay <==> category == CategoryRelay
    ensures src == System <==> category !in {CategorySensor, CategoryPump, CategoryRelay}
  {
    if category == CategorySensor then Sensor
    else if category == CategoryPump then Pump
    else if category == CategoryRelay then Relay
    else System
  }

  /** Popup timeout: 3 s by default, 5 s from ERROR up, 10 s for CRITICAL. */
  function PopupTimeout(level: nat): (ms: nat)
    ensures level == LevelCritical ==> ms == 10000
    ensures level >= LevelError && level != LevelCritical ==> ms == 5000
    ensures level < LevelError ==> ms == 3000
  {
    var t := if level >= LevelError then 5000 else 3000;
    if level == LevelCritical then 10000 else t
  }

  /** Among the defined levels, a more severe level never gets a shorter popup. */
  lemma PopupTimeoutMonotone(a: nat, b: nat)
    requires a <= b <= LevelCritical
    ensures PopupTimeout(a) <= PopupTimeout(b)
  {
  }

  /** The notification text "component: message", at most 90 characters of the message, in a 160-byte buffer. */
  function NotificationText(component: string, message: string): (t: string)
    ensures |t| <= NotificationMax
    ensures |component| + 2 + |message| <= NotificationMax && |message| <= NotificationMessagePart ==>
      t == component + ": " + message
  {
    TruncateTo(component + ": " + TruncateTo(message, NotificationMessagePart), NotificationMax)
  }

  predicate ContainsAt(s: string, sub: string, i: int)
  {
    0 <= i && i + |sub| <= |s| && s[i..i + |sub|] == sub
  }

  predicate Contains(s: string, sub: string)
  {
    exists i | 0 <= i <= |s| - |sub| :: ContainsAt(s, sub, i)
  }

  /** Tasks without LVGL access: their popups are deferred to the queue. */
  predicate Defers(taskName: string)
  {
    Contains(taskName, "sensor") || Contains(taskName, "i2c") || Contains(taskName, "system")
  }

  lemma SensorTaskDefers(prefix: string, suffix: string)
    ensures Defers(prefix + "sensor" + suffix)
  {
    var s := prefix + "sensor" + suffix;
    assert s[|prefix|..|prefix| + 6] == "sensor";
    assert ContainsAt(s, "sensor", |prefix|);
  }

  lemma MainTaskShowsDirectly()
    ensures !Defers("main")
  {
    assert !Contains("main", "sensor");
    assert !Contains("main", "system");
    forall i | 0 <= i <= 1
      ensures !ContainsAt("main", "i2c", i)
    {
      assert "main"[i + 1] != '2';
    }
  }

  /** Where show_error_popup_via_screen_manager sends a report. */
  datatype Route = Skipped | Queued | Dropped | Shown

  function RouteOf(showPopup: bool, lvglReady: bool, taskName: string, queued: nat): (r: Route)
    ensures r == Skipped <==> !showPopup || !lvglReady
    ensures r == Shown <==> showPopup && lvglReady && !Defers(taskName)
    ensures r == Queued <==> showPopup && lvglReady && Defers(taskName) && queued < QueueCapacity
    ensures r == Dropped <==> showPopup && lvglReady && Defers(taskName) && queued >= QueueCapacity
  {
    if !showPopup || !lvglReady then Skipped
    else if Defers(taskName) then (if queued < QueueCapacity then Queued else Dropped)
    else Shown
  }

  class Handler {
    var initialized: bool
    var showPopup: bool
    var hasCallback: bool
    var stats: Stats
    var queue: seq<PopupRequest>
    /** popup_show_error requests, in order. */
    var shown: seq<PopupRequest>
    /** notification_create requests, in order. */
    var sent: seq<NotificationRequest>
    /** Errors handed to the registered callback, in order. */
    var delivered: seq<ErrorInfo>

    predicate Valid()
      reads this
    {
      |queue| <= QueueCapacity && Classified(stats) <= stats.total
    }

    constructor()
      ensures Valid() && !initialized && showPopup && !hasCallback && stats == ZeroStats
      ensures queue == [] && shown == [] && sent == [] && delivered == []
    {
      initialized := false;
      showPopup := true;
      hasCallback := false;
      stats := ZeroStats;
      queue := [];
      shown := [];
      sent := [];
      delivered := [];
    }

    /** error_handler_init: a second call succeeds and changes nothing. */
    method Init(show: bool) returns (err: Err)
      modifies this
      ensures err == Ok && initialized
      ensures old(initialized) ==> showPopup == old(showPopup)
      ensures !old(initialized) ==> showPopup == show
      ensures stats == old(stats) && queue == old(queue) && hasCallback == old(hasCallback)
      ensures shown == old(shown) && sent == old(sent) && delivered == old(delivered)
    {
      if initialized {
        return Ok;
      }
      showPopup := show;
      initialized := true;
      return Ok;
    }

    /**
     * error_handler_report; `component` and `message` are None for NULL
     * pointers, `message` is the text the format produces.
     */
    method Report(category: nat, level: nat, code: int, component: Option<string>, message: Option<string>,
                  nowS: nat, lvglReady: bool, taskName: string) returns (err: Err)
      requires Valid()
      modifies this
      ensures Valid()
      ensures !old(initialized) ==> err == ErrInvalidState && stats == old(stats) && sent == old(sent)
      ensures old(initialized) && (component.None? || message.None?) ==> err == ErrInvalidArg && stats == old(stats)
      ensures old(initialized) && component.Some? && message.Some? ==>
        var msg := TruncateTo(message.value, ErrorMessageMax);
        var info := ErrorInfo(category, level, code, msg, nowS % U32, TruncateTo(component.value, ComponentMax));
        var route := if level >= LevelError then RouteOf(showPopup, lvglReady, taskName, |old(queue)|) else Skipped;
        && err == Ok
        && stats == Counted(old(stats), level)
        && sent == old(sent) + (if level >= LevelWarning
                                then [NotificationRequest(TypeOf(level), PriorityOf(level), SourceOf(category),
                                                          NotificationText(component.value, msg))]
                                else [])
        && queue == old(queue) + (if route == Queued then [PopupRequest(info, PopupTimeout(level))] else [])
        && shown == old(shown) + (if route == Shown then [PopupRequest(info, PopupTimeout(level))] else [])
        && delivered == old(delivered) + (if hasCallback then [info] else [])
      ensures err != Ok ==> queue == old(queue) && shown == old(shown) && sent == old(sent) && delivered == old(delivered)
      ensures initialized == old(initialized) && showPopup == old(showPopup) && hasCallback == old(hasCallback)
    {
      if !initialized {
        return ErrInvalidState;
      }
      if component.None? || message.None? {
        return ErrInvalidArg;
      }
      var msg := TruncateTo(message.value, ErrorMessageMax);
      CountedKeepsTotalBound(stats, level);
      stats := Counted(stats, level);
      var info := ErrorInfo(category, level, code, msg, nowS % U32, TruncateTo(component.value, ComponentMax));
      if level >= LevelWarning {
        sent := sent + [NotificationRequest(TypeOf(level), PriorityOf(level), SourceOf(category),
                                            NotificationText(component.value, msg))];
      }
      if level >= LevelError {
        var route := RouteOf(showPopup, lvglReady, taskName, |queue|);
        if route == Queued {
          queue := queue + [PopupRequest(info, PopupTimeout(level))];
        } else if route == Shown {
          shown := shown + [PopupRequest(info, PopupTimeout(level))];
        }
      }
      if hasCallback {
        delivered := delivered + [info];
      }
      return Ok;
    }

    method RegisterCallback(set_: bool) returns (err: Err)
      modifies this
      ensures err == Ok && hasCallback == set_
      ensures initialized == old(initialized) && showPopup == old(showPopup) && stats == old(stats) && queue == old(queue)
    {
      hasCallback := set_;
      return Ok;
    }

    method SetPopup(enable: bool) returns (err: Err)
      modifies this
      ensures err == Ok && showPopup == enable
      ensures initialized == old(initialized) && hasCallback == old(hasCallback) && stats == old(stats) && queue == old(queue)
    {
      showPopup := enable;
      return Ok;
    }

    /** error_handler_get_stats. */
    method GetStats() returns (err: Err, total: nat, critical: nat, errors: nat, warnings: nat)
      ensures !initialized ==> err == ErrInvalidState && total == 0 && critical == 0 && errors == 0 && warnings == 0
      ensures initialized ==> err == Ok && total == stats.total && critical == stats.critical
                              && errors == stats.errors && warnings == stats.warnings
    {
      if !initialized {
        return ErrInvalidState, 0, 0, 0, 0;
      }
      return Ok, stats.total, stats.critical, stats.errors, stats.warnings;
    }

    /** error_handler_clear_stats. */
    method ClearStats() returns (err: Err)
      requires Valid()
      modifies this
      ensures Valid()
      ensures !old(initialized) ==> err == ErrInvalidState && stats == old(stats)
      ensures old(initialized) ==> err == Ok && stats == ZeroStats
      ensures initialized == old(initialized) && queue == old(queue) && shown == old(shown)
    {
      if !initialized {
        return ErrInvalidState;
      }
      stats := ZeroStats;
      return Ok;
    }

    /** error_handler_process_queue: shows the oldest deferred popup. */
    method ProcessQueue() returns (err: Err)
      requires Valid()
      modifies this
      ensures Valid()
      ensures !old(initialized) ==> err == ErrInvalidState && queue == old(queue) && shown == old(shown)
      ensures old(initialized) && old(queue) == [] ==> err == ErrNotFound && queue == [] && shown == old(shown)
      ensures old(initialized) && old(queue) != [] ==>
        err == Ok && queue == old(queue)[1..] && shown == old(shown) + [old(queue)[0]]
      ensures stats == old(stats) && initialized == old(initialized) && sent == old(sent)
    {
      if !initialized {
        return ErrInvalidState;
      }
      if queue == [] {
        return ErrNotFound;
      }
      shown := shown + [queue[0]];
      queue := queue[1..];
      return Ok;
    }
  }

  /** error_category_to_string. */
  function CategoryName(category: nat): (s: string)
    ensures s == "UNKNOWN" <==> category > CategoryOther
  {
    if category == CategoryI2c then "I2C"
    else if category == CategorySensor then "SENSOR"
    else if category == CategoryDisplay then "DISPLAY"
    else if category == CategoryStorage then "STORAGE"
    else if category == CategorySystem then "SYSTEM"
    else if category == CategoryPump then "PUMP"
    else if category == CategoryRelay then "RELAY"
    else if category == CategoryController then "CONTROLLER"
    else if category == CategoryNetwork then "NETWORK"
    else if category == CategoryOther then "OTHER"
    else "UNKNOWN"
  }

  /** error_level_to_string (WARNING, ERROR and CRITICAL have Russian names). */
  function LevelName(level: nat): (s: string)
    ensures s == "UNKNOWN" <==> level > LevelCritical
  {
    if level == LevelDebug then "DEBUG"
    else if level == LevelInfo then "INFO"
    else if level == LevelWarning then "ВНИМАНИЕ"
    else if level == LevelError then "ОШИБКА"
    else if level == LevelCritical then "КРИТИЧЕСКАЯ ОШИБКА"
    else "UNKNOWN"
  }

  /** Different known categories have different names, so the name identifies the category. */
  lemma CategoryNamesDistinct(a: nat, b: nat)
    requires a <= CategoryOther && b <= CategoryOther && a != b
    ensures CategoryName(a) != CategoryName(b)
  {
  }
}
