/**
 * components/lvgl_ui/widgets/encoder_value_edit: a numeric field edited
 * with the rotary encoder.  A click toggles editing; while editing, UP and
 * DOWN move the value by one step as long as it stays within the limits and
 * ENTER leaves editing.  Floats are modelled as reals.
 */
module EncoderValueEdit {

  import opened Text
  import opened Seqs
  import opened LvEvents

  const UnitMax := 15

  /** The label text: "%d[ unit]" when no decimals are shown, "%.*f[ unit]" otherwise. */
  datatype Display = Whole(text: string) | Fixed(value: real, decimals: nat, unit: string)

  /** C's (int) cast of a float: truncation toward zero. */
  function TruncToInt(r: real): (i: int)
    ensures r >= 0.0 ==> i as real <= r < i as real + 1.0
    ensures r < 0.0 ==> i as real - 1.0 < r <= i as real
  {
    if r >= 0.0 then r.Floor else -((-r).Floor)
  }

  function DisplayOf(value: real, decimals: nat, unit: string): (d: Display)
    ensures decimals == 0 <==> d.Whole?
    ensures decimals == 0 && unit == "" ==> d == Whole(IntToString(TruncToInt(value)))
  {
    if decimals == 0 then
      Whole(IntToString(TruncToInt(value)) + (if unit != "" then " " + unit else ""))
    else Fixed(value, decimals, unit)
  }

  /** widget_encoder_value_set's limit: below the minimum becomes the minimum, then above the maximum the maximum. */
  function Clamp(v: real, lo: real, hi: real): (r: real)
    ensures lo <= hi ==> lo <= r <= hi
    ensures lo <= v <= hi ==> r == v
    ensures lo <= hi && v < lo ==> r == lo
    ensures v > hi ==> r == hi
  {
    var a := if v < lo then lo else v;
    if a > hi then hi else a
  }

  lemma ClampIdempotent(v: real, lo: real, hi: real)
    ensures Clamp(Clamp(v, lo, hi), lo, hi) == Clamp(v, lo, hi)
  {
  }

  /** The value after one event with editing state `editing`. */
  function Stepped(value: real, lo: real, hi: real, step: real, editing: bool, e: ButtonEvent): (r: real)
    ensures r == value || (editing && e.Key? && (e.key == KeyUp || e.key == KeyDown))
    ensures editing && e == Key(KeyUp) ==> r == (if value + step <= hi then value + step else value)
    ensures editing && e == Key(KeyDown) ==> r == (if value - step >= lo then value - step else value)
  {
    if !editing || !e.Key? then value
    else if e.key == KeyUp then (if value + step <= hi then value + step else value)
    else if e.key == KeyDown then (if value - step >= lo then value - step else value)
    else value
  }

  /** A non-negative step never takes a value that is within the limits out of them. */
  lemma SteppingStaysInRange(value: real, lo: real, hi: real, step: real, editing: bool, e: ButtonEvent)
    requires lo <= value <= hi && step >= 0.0
    ensures lo <= Stepped(value, lo, hi, step, editing, e) <= hi
  {
  }

  /** UP then DOWN with room to move comes back to the start value. */
  lemma UpThenDownRestores(value: real, lo: real, hi: real, step: real)
    requires value + step <= hi && value >= lo
    ensures Stepped(Stepped(value, lo, hi, step, true, Key(KeyUp)), lo, hi, step, true, Key(KeyDown)) == value
  {
  }

  class Editor {
    var value: real
    const minValue: real
    const maxValue: real
    const step: real
    const decimals: nat
    const unit: string
    var editing: bool
    var display: Display

    /** widget_encoder_value_create: the initial value is taken as given, not clamped. */
    constructor(initial: real, lo: real, hi: real, stepSize: real, decimalPlaces: nat, unitText: string)
      requires decimalPlaces < 256
      ensures value == initial && minValue == lo && maxValue == hi && step == stepSize
      ensures decimals == decimalPlaces && unit == TruncateTo(unitText, UnitMax)
      ensures !editing && display == DisplayOf(initial, decimalPlaces, unit)
    {
      value := initial;
      minValue := lo;
      maxValue := hi;
      step := stepSize;
      decimals := decimalPlaces;
      unit := TruncateTo(unitText, UnitMax);
      editing := false;
      display := DisplayOf(initial, decimalPlaces, TruncateTo(unitText, UnitMax));
    }

    /** value_event_handler. */
    method Handle(e: ButtonEvent)
      modifies this
      ensures (e == Clicked || e == Pressed) ==> editing == !old(editing) && value == old(value)
      ensures e.Key? ==> value == Stepped(old(value), minValue, maxValue, step, old(editing), e)
      ensures e.Key? ==> editing == (old(editing) && e.key != KeyEnter)
      ensures e == OtherEvent ==> editing == old(editing) && value == old(value)
      ensures var redraw := e == Clicked || e == Pressed
                || (e.Key? && old(editing)
                    && (e.key == KeyEnter || (e.key == KeyUp && old(value) + step <= maxValue)
                        || (e.key == KeyDown && old(value) - step >= minValue)));
        (redraw ==> display == DisplayOf(value, decimals, unit)) && (!redraw ==> display == old(display))
    {
      if e == Clicked || e == Pressed {
        editing := !editing;
        display := DisplayOf(value, decimals, unit);
      } else if e.Key? && editing {
        if e.key == KeyUp {
          var next := value + step;
          if next <= maxValue {
            value := next;
            display := DisplayOf(value, decimals, unit);
          }
        } else if e.key == KeyDown {
          var next := value - step;
          if next >= minValue {
            value := next;
            display := DisplayOf(value, decimals, unit);
          }
        } else if e.key == KeyEnter {
          editing := false;
          display := DisplayOf(value, decimals, unit);
        }
      }
    }

    /** widget_encoder_value_get. */
    function Get(): real
      reads this
    {
      value
    }

    /** widget_encoder_value_set: clamped to the limits. */
    method Set(v: real)
      modifies this
      ensures value == Clamp(v, minValue, maxValue) && editing == old(editing)
      ensures display == DisplayOf(value, decimals, unit)
    {
      var w := v;
      if w < minValue {
        w := minValue;
      }
      if w > maxValue {
        w := maxValue;
      }
      value := w;
      display := DisplayOf(value, decimals, unit);
    }

    /** widget_encoder_value_is_editing. */
    function IsEditing(): bool
      reads this
    {
      editing
    }
  }
}
