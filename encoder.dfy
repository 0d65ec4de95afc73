/**
 * components/encoder: the rotary encoder with a push button.  One pass of
 * the button task turns the button level into PRESS / LONG_PRESS / RELEASE
 * events and the pulse counter into a ROTATE event, all sent to a 10-item
 * queue without waiting (an event that finds the queue full is lost).
 * The clock, the GPIO level and the pulse counter are parameters.
 */
module Encoder {

  const QueueSize := 10
  const DefaultLongPressMs := 1000
  const U32 := 0x1_0000_0000

  datatype Event =
    | ButtonPress(durationMs: int)
    | ButtonLongPress(durationMs: int)
    | ButtonRelease
    | RotateCw(steps: nat)
    | RotateCcw(steps: nat)

  /** button_pressed, button_press_time and long_press_detected. */
  datatype Button = Button(pressed: bool, pressTimeMs: int, longDetected: bool)

  const Idle := Button(false, 0, false)

  /**
   * The button part of one pass: `high` is the GPIO level (the button is
   * active low), `nowMs` the time read by the pass.
   */
  function ButtonStep(b: Button, high: bool, nowMs: int, longMs: nat): (r: (Button, seq<Event>))
    ensures !high && !b.pressed ==> r.0 == Button(true, nowMs, false) && r.1 == []
    ensures high && b.pressed && b.longDetected ==> r.0 == Button(false, b.pressTimeMs, false) && r.1 == [ButtonRelease]
    ensures high && b.pressed && !b.longDetected ==>
      r.0 == Button(false, b.pressTimeMs, false) && r.1 == [ButtonPress(nowMs - b.pressTimeMs), ButtonRelease]
    ensures !high && b.pressed ==> r.0.pressed && r.0.pressTimeMs == b.pressTimeMs
    ensures high && !b.pressed ==> r == (b, [])
  {
    if !high && !b.pressed then (Button(true, nowMs, false), [])
    else if high && b.pressed then
      (Button(false, b.pressTimeMs, false),
       if b.longDetected then [ButtonRelease] else [ButtonPress(nowMs - b.pressTimeMs), ButtonRelease])
    else if b.pressed && !b.longDetected && nowMs - b.pressTimeMs >= longMs then
      (b.(longDetected := true), [ButtonLongPress(nowMs - b.pressTimeMs)])
    else (b, [])
  }

  /** The rotation part of one pass: a non-zero count becomes one event with its magnitude. */
  function RotationEvents(count: int): (es: seq<Event>)
    ensures count == 0 <==> es == []
    ensures count > 0 ==> es == [RotateCw(count)]
    ensures count < 0 ==> es == [RotateCcw(-count)]
  {
    if count == 0 then [] else if count > 0 then [RotateCw(count)] else [RotateCcw(-count)]
  }

  /** xQueueSend with no wait, for each event in turn. */
  function SendAll(q: seq<Event>, es: seq<Event>): (r: seq<Event>)
    requires |q| <= QueueSize
    ensures |r| <= QueueSize
    ensures |q| + |es| <= QueueSize ==> r == q + es
    decreases |es|
  {
    if |es| == 0 then q
    else SendAll(if |q| < QueueSize then q + [es[0]] else q, es[1..])
  }

  function CountLong(es: seq<Event>): nat
    decreases |es|
  {
    if |es| == 0 then 0 else (if es[0].ButtonLongPress? then 1 else 0) + CountLong(es[1..])
  }

  lemma {:induction false} CountLongAppend(a: seq<Event>, b: seq<Event>)
    ensures CountLong(a + b) == CountLong(a) + CountLong(b)
    decreases |a|
  {
    if |a| == 0 {
      assert a + b == b;
    } else {
      assert (a + b)[1..] == a[1..] + b;
      CountLongAppend(a[1..], b);
    }
  }

  /** The button events of passes at `times` while the button stays held. */
  function Held(b: Button, times: seq<int>, longMs: nat): (Button, seq<Event>)
    decreases |times|
  {
    if |times| == 0 then (b, [])
    else
      var s := ButtonStep(b, false, times[0], longMs);
      var rest := Held(s.0, times[1..], longMs);
      (rest.0, s.1 + rest.1)
  }

  /** However long the button is held, a press reports at most one long press, and none once it has. */
  lemma {:induction false} OneLongPressPerPress(b: Button, times: seq<int>, longMs: nat)
    requires b.pressed
    ensures Held(b, times, longMs).0.pressed
    ensures CountLong(Held(b, times, longMs).1) <= (if b.longDetected then 0 else 1)
    ensures b.longDetected ==> Held(b, times, longMs).0.longDetected
    decreases |times|
  {
    if |times| > 0 {
      var s := ButtonStep(b, false, times[0], longMs);
      OneLongPressPerPress(s.0, times[1..], longMs);
      CountLongAppend(s.1, Held(s.0, times[1..], longMs).1);
      assert CountLong(s.1) == (if s.0.longDetected && !b.longDetected then 1 else 0);
    }
  }

  class Encoder {
    var pinA: int
    var pinB: int
    var pinSw: int
    var longPressMs: nat
    /** encoder_event_queue exists. */
    var hasQueue: bool
    var queue: seq<Event>
    var button: Button
    /** The pulse counter. */
    var pulses: int

    predicate Valid()
      reads this
    {
      |queue| <= QueueSize
    }

    constructor()
      ensures Valid() && pinA == -1 && pinB == -1 && pinSw == -1 && longPressMs == DefaultLongPressMs
      ensures !hasQueue && queue == [] && button == Idle && pulses == 0
    {
      pinA, pinB, pinSw := -1, -1, -1;
      longPressMs := DefaultLongPressMs;
      hasQueue := false;
      queue := [];
      button := Idle;
      pulses := 0;
    }

    method SetPins(a: int, b: int, sw: int)
      modifies this
      ensures pinA == a && pinB == b && pinSw == sw
      ensures longPressMs == old(longPressMs) && hasQueue == old(hasQueue) && queue == old(queue) && button == old(button)
    {
      pinA, pinB, pinSw := a, b, sw;
    }

    method SetLongPressDuration(ms: nat)
      requires ms < U32
      modifies this
      ensures longPressMs == ms
      ensures hasQueue == old(hasQueue) && queue == old(queue) && button == old(button) && pulses == old(pulses)
    {
      longPressMs := ms;
    }

    /** encoder_init: nothing happens unless all three pins are set. */
    method Init()
      requires Valid()
      modifies this
      ensures Valid()
      ensures (pinA == -1 || pinB == -1 || pinSw == -1) ==> hasQueue == old(hasQueue) && queue == old(queue) && pulses == old(pulses)
      ensures !(pinA == -1 || pinB == -1 || pinSw == -1) ==> hasQueue && queue == [] && pulses == 0
      ensures button == old(button) && longPressMs == old(longPressMs)
      ensures pinA == old(pinA) && pinB == old(pinB) && pinSw == old(pinSw)
    {
      if pinA == -1 || pinB == -1 || pinSw == -1 {
        return;
      }
      hasQueue := true;
      queue := [];
      pulses := 0;
    }

    /** The pulse counter moves by `delta` as the shaft turns. */
    method Turn(delta: int)
      modifies this
      ensures pulses == old(pulses) + delta
      ensures queue == old(queue) && button == old(button) && hasQueue == old(hasQueue) && longPressMs == old(longPressMs)
    {
      pulses := pulses + delta;
    }

    /** One pass of encoder_button_task with button level `high` at `nowMs`. */
    method Poll(high: bool, nowMs: int)
      requires Valid()
      modifies this
      ensures Valid()
      ensures var s := ButtonStep(old(button), high, nowMs, longPressMs);
        && button == s.0
        && pulses == 0
        && queue == (if hasQueue then SendAll(old(queue), s.1 + RotationEvents(old(pulses))) else old(queue))
      ensures hasQueue == old(hasQueue) && longPressMs == old(longPressMs)
    {
      var s := ButtonStep(button, high, nowMs, longPressMs);
      button := s.0;
      var count := pulses;
      pulses := 0;
      if hasQueue {
        queue := SendAll(queue, s.1 + RotationEvents(count));
      }
    }
  }
}
