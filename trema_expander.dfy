/**
 * components/trema_expander: the iarduino 8-pin I2C expander at address
 * 0x16.  The driver keeps byte-wide caches of the direction, type, pull-up,
 * pull-down, output-mode and digital registers, and rewrites a whole cached
 * register on the bus after changing one pin's bit.  Bus transfers are
 * parameters and every write put on the bus is recorded in `sent`.
 */
module TremaExpander {

  import opened Bits

  const RegModel: bv8 := 0x04
  const RegFrequencyLow: bv8 := 0x08
  const RegDirection: bv8 := 0x10
  const RegType: bv8 := 0x11
  const RegPullUp: bv8 := 0x12
  const RegPullDown: bv8 := 0x13
  const RegOutMode: bv8 := 0x14
  const RegDigital: bv8 := 0x15
  const RegWriteHigh: bv8 := 0x16
  const RegWriteLow: bv8 := 0x17
  const RegAnalog: bv8 := 0x18

  const ExpanderModel: bv8 := 0x07

  /** The mode, type, scheme and pull constants of trema_expander.h. */
  const Output := 1
  const Analog := 3
  const OutOpenDrain := 6
  const PullUp := 7
  const PullDown := 8

  const AnalogMax := 4095

  /** The new pull-up and pull-down caches after pin_pull; anything but PULL_UP or PULL_DOWN switches both off. */
  function Pulled(up: bv8, down: bv8, pin: nat, pull: nat): (r: (bv8, bv8))
    requires pin < 8
  {
    if pull == PullUp then (Written(up, pin, 1), Written(down, pin, 0))
    else if pull == PullDown then (Written(up, pin, 0), Written(down, pin, 1))
    else (Written(up, pin, 0), Written(down, pin, 0))
  }

  /** No pin has both its pull-up and its pull-down bit set. */
  predicate PullsDisjoint(up: bv8, down: bv8)
  {
    up & down == 0
  }

  /** pin_pull keeps the pulls disjoint, and sets the pin's bits as the pull type says. */
  lemma PulledKeepsPullsDisjoint(up: bv8, down: bv8, pin: nat, pull: nat)
    requires pin < 8 && PullsDisjoint(up, down)
    ensures PullsDisjoint(Pulled(up, down, pin, pull).0, Pulled(up, down, pin, pull).1)
    ensures Bit(Pulled(up, down, pin, pull).0, pin) == (if pull == PullUp then 1 else 0)
    ensures Bit(Pulled(up, down, pin, pull).1, pin) == (if pull == PullDown then 1 else 0)
    ensures forall j :: 0 <= j < 8 && j != pin ==>
      Bit(Pulled(up, down, pin, pull).0, j) == Bit(up, j) && Bit(Pulled(up, down, pin, pull).1, j) == Bit(down, j)
  {
    forall j | 0 <= j < 8
      ensures j != pin ==> Bit(Pulled(up, down, pin, pull).0, j) == Bit(up, j) && Bit(Pulled(up, down, pin, pull).1, j) == Bit(down, j)
      ensures j == pin ==> Bit(Pulled(up, down, pin, pull).0, pin) == (if pull == PullUp then 1 else 0)
      ensures j == pin ==> Bit(Pulled(up, down, pin, pull).1, pin) == (if pull == PullDown then 1 else 0)
    {
      WrittenChangesOnlyItsBit(up, pin, if pull == PullUp then 1 else 0, j);
      WrittenChangesOnlyItsBit(down, pin, if pull == PullDown then 1 else 0, j);
    }
  }

  /** The 16-bit analog value from its two bytes, low byte first. */
  function LittleEndian(low: nat, high: nat): (v: nat)
    requires low < 256 && high < 256
    ensures v < 0x1_0000
  {
    high * 256 + low
  }

  function LowByte(v: nat): (b: nat)
    ensures b < 256
  {
    v % 256
  }

  function HighByte(v: nat): (b: nat)
    requires v < 0x1_0000
    ensures b < 256
  {
    v / 256
  }

  /** The frequency bytes freq_pwm sends, read back low byte first, give the frequency. */
  lemma FrequencyBytesRoundTrip(v: nat)
    requires v < 0x1_0000
    ensures LittleEndian(LowByte(v), HighByte(v)) == v
  {
  }

  /** The two bytes that make up a value are the bytes freq_pwm would send for it. */
  lemma LittleEndianBytes(low: nat, high: nat)
    requires low < 256 && high < 256
    ensures LowByte(LittleEndian(low, high)) == low && HighByte(LittleEndian(low, high)) == high
  {
    var v := LittleEndian(low, high);
    var q, r := v / 256, v % 256;
    assert v == 256 * q + r && r < 256;
    if q < high {
      assert false;
    } else if q > high {
      assert false;
    }
  }

  class Expander {
    var stub: bool
    var initialized: bool
    var direction: bv8
    /** type_reg. */
    var kind: bv8
    var pullUp: bv8
    var pullDown: bv8
    var outMode: bv8
    var digital: bv8
    /** Each write put on the bus: the register address followed by the data bytes. */
    var sent: seq<seq<bv8>>

    predicate Valid()
      reads this
    {
      PullsDisjoint(pullUp, pullDown)
    }

    /** The guard of every operation: initialised, or running on stub values. */
    predicate Ready()
      reads this
    {
      initialized || stub
    }

    constructor()
      ensures Valid() && !stub && !initialized && sent == []
      ensures direction == 0 && kind == 0 && pullUp == 0 && pullDown == 0 && outMode == 0 && digital == 0
    {
      stub, initialized := false, false;
      direction, kind, pullUp, pullDown, outMode, digital := 0, 0, 0, 0, 0, 0;
      sent := [];
    }

    /** trema_expander_init: the model register must read 0x07; any failure switches to stub values. */
    method Init(writeOk: bool, readOk: bool, id: bv8) returns (ok: bool)
      requires Valid()
      modifies this
      ensures Valid()
      ensures ok <==> writeOk && readOk && id == ExpanderModel
      ensures ok ==> initialized && !stub
      ensures !ok ==> stub && initialized == old(initialized)
      ensures sent == old(sent) + [[RegModel]]
      ensures direction == old(direction) && kind == old(kind) && pullUp == old(pullUp) && pullDown == old(pullDown)
      ensures outMode == old(outMode) && digital == old(digital)
    {
      sent := sent + [[RegModel]];
      if !writeOk || !readOk || id != ExpanderModel {
        stub := true;
        return false;
      }
      initialized := true;
      stub := false;
      return true;
    }

    /** trema_expander_pin_mode: the pin's direction bit is OUTPUT, its type bit ANALOG. */
    method PinMode(pin: nat, mode: nat, pinType: nat)
      requires Valid() && pin < 256
      modifies this
      ensures Valid()
      ensures pin > 7 || !Ready() ==> direction == old(direction) && kind == old(kind) && sent == old(sent)
      ensures pin <= 7 && Ready() ==>
        && direction == Written(old(direction), pin, if mode == Output then 1 else 0)
        && kind == Written(old(kind), pin, if pinType == Analog then 1 else 0)
        && sent == old(sent) + (if stub then [] else [[RegDirection, direction], [RegType, kind]])
      ensures stub == old(stub) && initialized == old(initialized)
      ensures pullUp == old(pullUp) && pullDown == old(pullDown) && outMode == old(outMode) && digital == old(digital)
    {
      if pin > 7 {
        return;
      }
      if !initialized && !stub {
        return;
      }
      direction := Written(direction, pin, if mode == Output then 1 else 0);
      kind := Written(kind, pin, if pinType == Analog then 1 else 0);
      if stub {
        return;
      }
      sent := sent + [[RegDirection, direction], [RegType, kind]];
    }

    /** trema_expander_pin_pull. */
    method PinPull(pin: nat, pull: nat)
      requires Valid() && pin < 256
      modifies this
      ensures Valid()
      ensures pin > 7 || !Ready() ==> pullUp == old(pullUp) && pullDown == old(pullDown) && sent == old(sent)
      ensures pin <= 7 && Ready() ==>
        && (pullUp, pullDown) == Pulled(old(pullUp), old(pullDown), pin, pull)
        && sent == old(sent) + (if stub then [] else [[RegPullUp, pullUp], [RegPullDown, pullDown]])
      ensures stub == old(stub) && initialized == old(initialized)
      ensures direction == old(direction) && kind == old(kind) && outMode == old(outMode) && digital == old(digital)
    {
      if pin > 7 {
        return;
      }
      if !initialized && !stub {
        return;
      }
      var p := Pulled(pullUp, pullDown, pin, pull);
      assert PullsDisjoint(p.0, p.1) by {
        PulledKeepsPullsDisjoint(pullUp, pullDown, pin, pull);
      }
      pullUp, pullDown := p.0, p.1;
      if stub {
        return;
      }
      sent := sent + [[RegPullUp, pullUp], [RegPullDown, pullDown]];
    }

    /** trema_expander_pin_out_scheme: the pin's output-mode bit is set exactly for OUT_OPEN_DRAIN. */
    method PinOutScheme(pin: nat, scheme: nat)
      requires Valid() && pin < 256
      modifies this
      ensures Valid()
      ensures pin > 7 || !Ready() ==> outMode == old(outMode) && sent == old(sent)
      ensures pin <= 7 && Ready() ==>
        && outMode == Written(old(outMode), pin, if scheme == OutOpenDrain then 1 else 0)
        && sent == old(sent) + (if stub then [] else [[RegOutMode, outMode]])
      ensures stub == old(stub) && initialized == old(initialized)
      ensures direction == old(direction) && kind == old(kind) && pullUp == old(pullUp) && pullDown == old(pullDown)
      ensures digital == old(digital)
    {
      if pin > 7 {
        return;
      }
      if !initialized && !stub {
        return;
      }
      outMode := Written(outMode, pin, if scheme == OutOpenDrain then 1 else 0);
      if stub {
        return;
      }
      sent := sent + [[RegOutMode, outMode]];
    }

    /** trema_expander_digital_write: the pin alone is named to the WRITE_HIGH or WRITE_LOW register. */
    method DigitalWrite(pin: nat, value: nat)
      requires Valid() && pin < 256
      modifies this
      ensures Valid()
      ensures pin > 7 || !Ready() ==> digital == old(digital) && sent == old(sent)
      ensures pin <= 7 && Ready() ==>
        && digital == Written(old(digital), pin, value)
        && sent == old(sent) + (if stub then [] else [[if value != 0 then RegWriteHigh else RegWriteLow, (1 as bv8) << pin]])
      ensures stub == old(stub) && initialized == old(initialized)
      ensures direction == old(direction) && kind == old(kind) && pullUp == old(pullUp) && pullDown == old(pullDown)
      ensures outMode == old(outMode)
    {
      if pin > 7 {
        return;
      }
      if !initialized && !stub {
        return;
      }
      digital := Written(digital, pin, value);
      if stub {
        return;
      }
      sent := sent + [[if value != 0 then RegWriteHigh else RegWriteLow, (1 as bv8) << pin]];
    }

    /** trema_expander_digital_read: write the digital register's address, read one byte `reg`. */
    method DigitalRead(pin: nat, writeOk: bool, readOk: bool, reg: bv8) returns (v: bv8)
      requires pin < 256
      modifies this
      ensures v == 0 || v == 1
      ensures pin > 7 || !Ready() || stub ==> v == 0 && sent == old(sent)
      ensures pin <= 7 && initialized && !stub ==>
        sent == old(sent) + [[RegDigital]] && v == (if writeOk && readOk then Bit(reg, pin) else 0)
      ensures stub == old(stub) && initialized == old(initialized) && digital == old(digital)
      ensures direction == old(direction) && kind == old(kind) && pullUp == old(pullUp) && pullDown == old(pullDown)
      ensures outMode == old(outMode)
    {
      if pin > 7 {
        return 0;
      }
      if !initialized && !stub {
        return 0;
      }
      if stub {
        return 0;
      }
      sent := sent + [[RegDigital]];
      if !writeOk || !readOk {
        return 0;
      }
      return Bit(reg, pin);
    }

    /**
     * trema_expander_analog_write: values above 4095 are rejected; otherwise
     * the pin is written as a digital output, high for any non-zero value.
     * The stub check comes first, so in stub mode not even the cache changes.
     */
    method AnalogWrite(pin: nat, value: nat)
      requires Valid() && pin < 256 && value < 0x1_0000
      modifies this
      ensures Valid()
      ensures pin > 7 || value > AnalogMax || !Ready() || stub ==> digital == old(digital) && sent == old(sent)
      ensures pin <= 7 && value <= AnalogMax && initialized && !stub ==>
        && digital == Written(old(digital), pin, if value > 0 then 1 else 0)
        && sent == old(sent) + [[if value > 0 then RegWriteHigh else RegWriteLow, (1 as bv8) << pin]]
      ensures stub == old(stub) && initialized == old(initialized)
      ensures direction == old(direction) && kind == old(kind) && pullUp == old(pullUp) && pullDown == old(pullDown)
      ensures outMode == old(outMode)
    {
      if pin > 7 {
        return;
      }
      if value > AnalogMax {
        return;
      }
      if !initialized && !stub {
        return;
      }
      if stub {
        return;
      }
      DigitalWrite(pin, if value > 0 then 1 else 0);
    }

    /**
     * trema_expander_analog_read: write the pin's analog register address
     * (two bytes per pin), then read the two bytes `low` and `high`.
     */
    method AnalogRead(pin: nat, writeOk: bool, readOk: bool, low: nat, high: nat) returns (v: nat)
      requires pin < 256 && low < 256 && high < 256
      modifies this
      ensures v < 0x1_0000
      ensures pin > 7 || !Ready() || stub ==> v == 0 && sent == old(sent)
      ensures pin <= 7 && initialized && !stub ==>
        && sent == old(sent) + [[RegAnalog + (pin * 2) as bv8]]
        && v == (if writeOk && readOk then LittleEndian(low, high) else 0)
      ensures stub == old(stub) && initialized == old(initialized) && digital == old(digital)
      ensures direction == old(direction) && kind == old(kind) && pullUp == old(pullUp) && pullDown == old(pullDown)
      ensures outMode == old(outMode)
    {
      if pin > 7 {
        return 0;
      }
      if !initialized && !stub {
        return 0;
      }
      if stub {
        return 0;
      }
      sent := sent + [[RegAnalog + (pin * 2) as bv8]];
      if !writeOk || !readOk {
        return 0;
      }
      return LittleEndian(low, high);
    }

    /** trema_expander_freq_pwm: the frequency goes to REG_EXP_FREQUENCY_L, low byte first. */
    method FreqPwm(frequency: nat)
      requires frequency < 0x1_0000
      modifies this
      ensures sent == old(sent) + (if initialized && !stub then [[RegFrequencyLow, LowByte(frequency) as bv8, HighByte(frequency) as bv8]] else [])
      ensures stub == old(stub) && initialized == old(initialized) && digital == old(digital)
      ensures direction == old(direction) && kind == old(kind) && pullUp == old(pullUp) && pullDown == old(pullDown)
      ensures outMode == old(outMode)
    {
      if !initialized && !stub {
        return;
      }
      if stub {
        return;
      }
      sent := sent + [[RegFrequencyLow, LowByte(frequency) as bv8, HighByte(frequency) as bv8]];
    }

    /** trema_expander_is_using_stub_values. */
    function UsingStub(): bool
      reads this
    {
      stub
    }
  }
}
