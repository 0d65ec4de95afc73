/**
 * components/xpt2046: the resistive touch controller.  Readings are 12-bit
 * values taken from SPI responses; a touch is accepted from the two pressure
 * readings, and the position is clamped to the calibration window, scaled
 * to the 240x320 panel and filtered against stuck readings.  The SPI
 * transfers are parameters: each read is the two data bytes of its response.
 */
module Xpt2046 {

  const PanelWidth := 240
  const PanelHeight := 320
  const PressThreshold := 150
  const StuckThreshold := 10
  const U16 := 0x1_0000

  const DefaultMinRawX := 300
  const DefaultMaxRawX := 3800
  const DefaultMinRawY := 200
  const DefaultMaxRawY := 3900

  /** The data bytes rx_data[1], rx_data[2] of one 3-byte transfer; None when the transfer failed. */
  datatype Response = Response(high: nat, low: nat) | Failed

  predicate ByteResponse(r: Response)
  {
    r.Response? ==> r.high < 256 && r.low < 256
  }

  /** xpt2046_read_register: (response >> 3) & 0x0FFF, and 0 when the transfer failed. */
  function Register(r: Response): (v: nat)
    requires ByteResponse(r)
    ensures v <= 4095
    ensures r.Response? ==> v == ((r.high * 256 + r.low) / 8) % 4096
  {
    if r.Failed? then 0 else ((r.high * 256 + r.low) / 8) % 4096
  }

  /** The three low bits of the second byte are not part of the reading. */
  lemma RegisterIgnoresLowBits(h: nat, a: nat, b: nat)
    requires h < 256 && a < 256 && b < 256 && a / 8 == b / 8
    ensures Register(Response(h, a)) == Register(Response(h, b))
  {
    assert (h * 256 + a) / 8 == h * 32 + a / 8;
    assert (h * 256 + b) / 8 == h * 32 + b / 8;
  }

  /** xpt2046_is_touched on the two pressure readings. */
  predicate Touched(z1: nat, z2: nat)
  {
    && z1 < 4000 && z2 < 4000
    && z1 > 10 && z2 > 10
    && z1 > PressThreshold && z1 < 3500 && z2 < 3500
    && (if z1 >= z2 then z1 - z2 else z2 - z1) <= 1000
  }

  /** The accepted readings, stated once as one window. */
  lemma TouchedWindow(z1: nat, z2: nat)
    ensures Touched(z1, z2) <==> (PressThreshold < z1 < 3500 && 10 < z2 < 3500 && -1000 <= z1 - z2 <= 1000)
  {
  }

  /** A raw coordinate value that indicates a stuck panel. */
  predicate StuckRaw(raw: nat)
  {
    raw == 0 || raw >= 4000
  }

  /** Scaling without the limits: the clamped value times the span over the window width. */
  function Scaled(r: nat, lo: nat, hi: nat, span: nat): nat
    requires lo <= r <= hi && lo < hi
  {
    ((r - lo) * span) / (hi - lo)
  }

  /** One axis: clamp to [lo, hi], scale to [0, span], keep below span. */
  function MapAxis(raw: nat, lo: nat, hi: nat, span: nat): (c: nat)
    requires lo < hi && span > 0
    ensures c < span
  {
    var r := if raw < lo then lo else if raw > hi then hi else raw;
    var v := Scaled(r, lo, hi, span);
    if v >= span then span - 1 else v
  }

  /** The window's lower edge maps to 0 and its upper edge to the last pixel. */
  lemma MapAxisEdges(raw: nat, lo: nat, hi: nat, span: nat)
    requires lo < hi && span > 0
    ensures raw <= lo ==> MapAxis(raw, lo, hi, span) == 0
    ensures raw >= hi ==> MapAxis(raw, lo, hi, span) == span - 1
  {
    if raw <= lo {
      assert Scaled(lo, lo, hi, span) == 0;
    }
    if raw >= hi {
      MulDivCancel(hi - lo, span);
      assert Scaled(hi, lo, hi, span) == span;
    }
  }

  lemma MulDivCancel(d: nat, s: nat)
    requires d > 0
    ensures (d * s) / d == s
  {
    var q := (d * s) / d;
    var r := (d * s) % d;
    assert d * s == d * q + r;
    if q < s {
      MulMonotone(q + 1, s, d);
      assert false;
    } else if q > s {
      MulMonotone(s + 1, q, d);
      assert false;
    }
  }

  /** A point further along the panel never maps to a smaller coordinate. */
  lemma MapAxisMonotone(a: nat, b: nat, lo: nat, hi: nat, span: nat)
    requires lo < hi && span > 0 && a <= b
    ensures MapAxis(a, lo, hi, span) <= MapAxis(b, lo, hi, span)
  {
    var ra := if a < lo then lo else if a > hi then hi else a;
    var rb := if b < lo then lo else if b > hi then hi else b;
    assert ra <= rb;
    MulMonotone(ra - lo, rb - lo, span);
    DivMonotone((ra - lo) * span, (rb - lo) * span, hi - lo);
  }

  lemma MulMonotone(a: nat, b: nat, k: nat)
    requires a <= b
    ensures a * k <= b * k
    ensures k * a <= k * b
  {
    assert b * k == a * k + (b - a) * k;
  }

  lemma DivMonotone(a: nat, b: nat, d: nat)
    requires a <= b && d > 0
    ensures a / d <= b / d
  {
    var qa, qb := a / d, b / d;
    assert a == d * qa + a % d;
    assert b == d * qb + b % d;
    if qa > qb {
      MulMonotone(qb + 1, qa, d);
      assert false;
    }
  }

  /**
   * xpt2046_calibrate as written stores any bounds; equal bounds make the
   * divisor of read_touch's scaling zero.
   */
  function ScaleDivisorAsWritten(minRaw: nat, maxRaw: nat): int
  {
    maxRaw - minRaw
  }

  /** A reading at equal bounds `v` passes the stuck filter, so it reaches the division by zero. */
  lemma EqualBoundsDivideByZero(v: nat)
    requires 0 < v < 4000
    ensures !StuckRaw(v)
    ensures ScaleDivisorAsWritten(v, v) == 0
  {
  }

  datatype Touch = NoTouch | Point(x: nat, y: nat)

  /**
   * The answer of a stuck reading once the counter is `count`: nothing from
   * the threshold on, else the last valid point unless that is still (0, 0).
   */
  predicate StuckAnswer(t: Touch, count: nat, lastX: nat, lastY: nat)
  {
    if count >= StuckThreshold then t == NoTouch
    else if lastX != 0 || lastY != 0 then t == Point(lastX, lastY)
    else t == NoTouch
  }

  class Touchscreen {
    /** spi_touch_handle != NULL. */
    var attached: bool
    var minRawX: nat
    var maxRawX: nat
    var minRawY: nat
    var maxRawY: nat
    var stuckCount: nat
    var lastX: nat
    var lastY: nat

    predicate Valid()
      reads this
    {
      minRawX < maxRawX < U16 && minRawY < maxRawY < U16 && stuckCount < U16
      && lastX < PanelWidth && lastY < PanelHeight
    }

    constructor()
      ensures Valid() && !attached && stuckCount == 0 && lastX == 0 && lastY == 0
      ensures minRawX == DefaultMinRawX && maxRawX == DefaultMaxRawX
      ensures minRawY == DefaultMinRawY && maxRawY == DefaultMaxRawY
    {
      attached := false;
      minRawX, maxRawX := DefaultMinRawX, DefaultMaxRawX;
      minRawY, maxRawY := DefaultMinRawY, DefaultMaxRawY;
      stuckCount := 0;
      lastX, lastY := 0, 0;
    }

    /** xpt2046_init / xpt2046_deinit: whether adding the SPI device succeeded. */
    method Attach(ok: bool)
      modifies this
      ensures attached == ok
      ensures minRawX == old(minRawX) && maxRawX == old(maxRawX) && minRawY == old(minRawY) && maxRawY == old(maxRawY)
      ensures stuckCount == old(stuckCount) && lastX == old(lastX) && lastY == old(lastY)
    {
      attached := ok;
    }

    /** xpt2046_calibrate, keeping only bounds that leave a non-empty window on each axis. */
    method Calibrate(minX: nat, maxX: nat, minY: nat, maxY: nat) returns (accepted: bool)
      requires Valid() && maxX < U16 && maxY < U16
      modifies this
      ensures Valid()
      ensures accepted <==> minX < maxX && minY < maxY
      ensures accepted ==> minRawX == minX && maxRawX == maxX && minRawY == minY && maxRawY == maxY
      ensures !accepted ==> minRawX == old(minRawX) && maxRawX == old(maxRawX) && minRawY == old(minRawY) && maxRawY == old(maxRawY)
      ensures attached == old(attached) && stuckCount == old(stuckCount) && lastX == old(lastX) && lastY == old(lastY)
    {
      if minX >= maxX || minY >= maxY {
        return false;
      }
      minRawX, maxRawX, minRawY, maxRawY := minX, maxX, minY, maxY;
      return true;
    }

    /** xpt2046_is_touched: false without a device; reads Z1 then Z2. */
    method IsTouched(z1: Response, z2: Response) returns (touched: bool)
      requires ByteResponse(z1) && ByteResponse(z2)
      ensures touched <==> attached && Touched(Register(z1), Register(z2))
    {
      if !attached {
        return false;
      }
      touched := Touched(Register(z1), Register(z2));
    }

    /** The stuck path: count the reading and fall back to the last valid point while below the threshold. */
    method Stuck() returns (t: Touch)
      requires Valid()
      modifies this
      ensures Valid()
      ensures stuckCount == (old(stuckCount) + 1) % U16
      ensures stuckCount >= StuckThreshold ==> t == NoTouch
      ensures stuckCount < StuckThreshold && (lastX != 0 || lastY != 0) ==> t == Point(lastX, lastY)
      ensures stuckCount < StuckThreshold && lastX == 0 && lastY == 0 ==> t == NoTouch
      ensures lastX == old(lastX) && lastY == old(lastY) && attached == old(attached)
      ensures minRawX == old(minRawX) && maxRawX == old(maxRawX) && minRawY == old(minRawY) && maxRawY == old(maxRawY)
    {
      stuckCount := (stuckCount + 1) % U16;
      if stuckCount >= StuckThreshold {
        return NoTouch;
      }
      if lastX != 0 || lastY != 0 {
        return Point(lastX, lastY);
      }
      return NoTouch;
    }

    /**
     * xpt2046_read_touch; `outputs` is whether both output pointers are
     * given, the responses are those of the Z1, Z2, X and Y reads.
     */
    method ReadTouch(outputs: bool, z1: Response, z2: Response, rx: Response, ry: Response) returns (t: Touch)
      requires Valid() && ByteResponse(z1) && ByteResponse(z2) && ByteResponse(rx) && ByteResponse(ry)
      modifies this
      ensures Valid()
      ensures !outputs ==> t == NoTouch && stuckCount == old(stuckCount)
      ensures outputs && !(attached && Touched(Register(z1), Register(z2))) ==> t == NoTouch && stuckCount == 0
      ensures outputs && attached && Touched(Register(z1), Register(z2)) && !StuckRaw(Register(rx)) && !StuckRaw(Register(ry)) ==>
        var x := MapAxis(Register(rx), minRawX, maxRawX, PanelWidth);
        var y := MapAxis(Register(ry), minRawY, maxRawY, PanelHeight);
        ((x, y) != (PanelWidth - 1, PanelHeight - 1) ==> t == Point(x, y) && stuckCount == 0 && lastX == x && lastY == y)
        && ((x, y) == (PanelWidth - 1, PanelHeight - 1) ==>
              stuckCount == (old(stuckCount) + 1) % U16 && StuckAnswer(t, stuckCount, old(lastX), old(lastY)))
    ensures outputs && attached && Touched(Register(z1), Register(z2)) && (StuckRaw(Register(rx)) || StuckRaw(Register(ry))) ==>
      stuckCount == (old(stuckCount) + 1) % U16 && StuckAnswer(t, stuckCount, old(lastX), old(lastY))
      ensures t.Point? ==> t.x < PanelWidth && t.y < PanelHeight
      ensures t.Point? && stuckCount != 0 ==> t == Point(old(lastX), old(lastY)) && stuckCount < StuckThreshold
      ensures StuckRaw(Register(rx)) || StuckRaw(Register(ry)) ==> lastX == old(lastX) && lastY == old(lastY)
      ensures attached == old(attached)
      ensures minRawX == old(minRawX) && maxRawX == old(maxRawX) && minRawY == old(minRawY) && maxRawY == old(maxRawY)
    {
      if !outputs {
        return NoTouch;
      }
      var touched := IsTouched(z1, z2);
      if !touched {
        stuckCount := 0;
        return NoTouch;
      }
      var rawX := Register(rx);
      var rawY := Register(ry);
      if rawX >= 4000 || rawY >= 4000 || rawX == 0 || rawY == 0 {
        t := Stuck();
        return;
      }
      var x := MapAxis(rawX, minRawX, maxRawX, PanelWidth);
      var y := MapAxis(rawY, minRawY, maxRawY, PanelHeight);
      if x == PanelWidth - 1 && y == PanelHeight - 1 {
        t := Stuck();
        return;
      }
      stuckCount := 0;
      lastX, lastY := x, y;
      return Point(x, y);
    }
  }
}
