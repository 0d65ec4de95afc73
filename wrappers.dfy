/** Small shared value types used by every module of the model. */
module Wrappers {

  /** An optional value: Python's `None`, a C `NULL` pointer or a missing entry. */
  datatype Option<+T> = None | Some(value: T)
  {
    function GetOr(default: T): T
    {
      match this
      case Some(v) => v
      case None => default
    }
  }
}

/**
 * The `esp_err_t` codes the firmware components return.  Only the codes the
 * modelled functions actually produce are listed.
 */
module Esp {

  datatype Err =
    | Ok                 // ESP_OK
    | Fail               // ESP_FAIL
    | ErrNoMem           // ESP_ERR_NO_MEM
    | ErrInvalidArg      // ESP_ERR_INVALID_ARG
    | ErrInvalidState    // ESP_ERR_INVALID_STATE
    | ErrInvalidSize     // ESP_ERR_INVALID_SIZE
    | ErrNotFound        // ESP_ERR_NOT_FOUND
    | ErrNotSupported    // ESP_ERR_NOT_SUPPORTED
    | ErrTimeout         // ESP_ERR_TIMEOUT
    | ErrNotAllowed      // ESP_ERR_NOT_ALLOWED
    | ErrIo(code: int)   // an error passed through unchanged from I/O (NVS, I2C, LVGL)
}

/** Sequence helpers shared by the bounded containers. */
module Seqs {

  /** Append `x`; when `xs` is already at capacity, the oldest (first) element is dropped. */
  function PushBounded<T>(xs: seq<T>, x: T, cap: nat): (r: seq<T>)
    requires 0 < cap && |xs| <= cap
    ensures |r| <= cap && r != [] && r[|r| - 1] == x
    ensures |xs| < cap ==> r == xs + [x]
    ensures |xs| == cap ==> r == xs[1..] + [x]
  {
    if |xs| < cap then xs + [x] else xs[1..] + [x]
  }

  /** strncpy into a buffer of n + 1 bytes: at most the first n elements survive. */
  function TruncateTo<T>(xs: seq<T>, n: nat): (r: seq<T>)
    ensures |r| <= n && |r| <= |xs| && r == xs[..|r|]
    ensures |xs| <= n ==> r == xs
    ensures |xs| > n ==> |r| == n
  {
    if |xs| <= n then xs else xs[..n]
  }

  /**
   * The contents of a ring buffer of `cap` slots, oldest first: the first
   * `count` slots until it is full, then from the write index round.
   */
  function RingView<T>(a: seq<T>, index: nat, count: nat, cap: nat): (r: seq<T>)
    requires |a| == cap && index < cap && count <= cap
    ensures |r| == count
  {
    if count < cap then a[..count] else a[index..] + a[..index]
  }

  /** A ring buffer's write index once it holds `count` values: `count` until full. */
  predicate RingIndexOk(index: nat, count: nat, cap: nat)
  {
    index < cap && count <= cap && (count < cap ==> index == count)
  }

  /** Writing at the index, advancing it modulo cap and counting up to cap pushes onto the view. */
  lemma RingPush<T>(a: seq<T>, index: nat, count: nat, cap: nat, x: T)
    requires |a| == cap && RingIndexOk(index, count, cap)
    ensures RingIndexOk((index + 1) % cap, if count < cap then count + 1 else cap, cap)
    ensures RingView(a[index := x], (index + 1) % cap, if count < cap then count + 1 else cap, cap)
            == PushBounded(RingView(a, index, count, cap), x, cap)
  {
    var b := a[index := x];
    if index + 1 < cap {
      assert (index + 1) % cap == index + 1;
    } else {
      assert (index + 1) % cap == 0;
    }
    if count < cap {
      assert b[..count + 1] == a[..count] + [x];
      if count + 1 == cap {
        assert b[0..] + b[..0] == b[..count + 1];
      }
    } else {
      var v := a[index..] + a[..index];
      if index + 1 < cap {
        assert v[1..] == a[index + 1..] + a[..index];
        assert b[index + 1..] == a[index + 1..];
        assert b[..index + 1] == a[..index] + [x];
      } else {
        assert v[1..] == a[..index];
        assert b[0..] + b[..0] == a[..index] + [x];
      }
    }
  }
}

/** The LVGL input events the screens' buttons and widgets react to. */
module LvEvents {

  /** LV_KEY_* codes. */
  const KeyUp := 17
  const KeyDown := 18
  const KeyRight := 19
  const KeyLeft := 20
  const KeyEsc := 27
  const KeyEnter := 10

  /** LV_EVENT_CLICKED, LV_EVENT_PRESSED, LV_EVENT_KEY with its key, and every other event code. */
  datatype ButtonEvent = Clicked | Pressed | Key(key: nat) | OtherEvent

  /** The events most buttons act on: a click, a press, or the ENTER key. */
  predicate Activates(e: ButtonEvent)
  {
    e.Clicked? || e.Pressed? || (e.Key? && e.key == KeyEnter)
  }
}
