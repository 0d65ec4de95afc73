/**
 * components/trema_relay: the iarduino I2C relay at address 0x17.  The
 * driver keeps a cache of the digital register (one bit per channel), the
 * watchdog state and whether it runs on stub values because no relay
 * answered.  Bus transfers are parameters (their outcome and the bytes read)
 * and every write put on the bus is recorded in `sent`.
 */
module TremaRelay {

  import opened Bits

  const RegModel: bv8 := 0x04
  const RegDigitalAll: bv8 := 0x12
  const RegDigitalOne: bv8 := 0x13
  const RegWdt: bv8 := 0x30

  const Low := 0
  const High := 1

  /** The model IDs init accepts: 2-channel relay, 4-channel SSR and the 0x0E the board reports. */
  predicate AcceptedModel(id: bv8)
  {
    id == 0x0A || id == 0x0B || id == 0x0E
  }

  /** The last valid channel: 3 on the 4-channel SSR (model 0x0B), 1 on every other model. */
  function MaxChannel(model: bv8): (m: nat)
    ensures m == 3 <==> model == 0x0B
    ensures m == 1 <==> model != 0x0B
  {
    if model == 0x0B then 3 else 1
  }

  /** The data byte of a REG_REL_DIGITAL_ONE write: 1 << (ch + 4) switches a channel on, 1 << ch off. */
  function Payload(ch: nat, value: nat): bv8
    requires ch < 4
  {
    if value != 0 then (1 as bv8) << (ch + 4) else (1 as bv8) << ch
  }

  /**
   * The relay protocol behind the payload: the high nibble names channels
   * to switch on, the low nibble channels to switch off, and exactly the
   * written channel is named.
   */
  lemma PayloadNamesOneChannel(ch: nat, value: nat)
    requires ch < 4
    ensures value != 0 ==> Payload(ch, value) & 0x0F == 0 && Payload(ch, value) >> 4 == (1 as bv8) << ch
    ensures value == 0 ==> Payload(ch, value) >> 4 == 0 && Payload(ch, value) & 0x0F == (1 as bv8) << ch
  {
  }

  /** The register with channels 0 .. n - 1 switched off, one after the other. */
  function Cleared(r: bv8, n: nat): bv8
    requires n <= 8
    decreases n
  {
    if n == 0 then r else Written(Cleared(r, n - 1), n - 1, Low)
  }

  /** Switching channels 0 .. n - 1 off clears exactly those bits. */
  lemma {:induction false} ClearedBits(r: bv8, n: nat, j: nat)
    requires n <= 8 && j < 8
    ensures j < n ==> Bit(Cleared(r, n), j) == 0
    ensures j >= n ==> Bit(Cleared(r, n), j) == Bit(r, j)
    decreases n
  {
    if n > 0 {
      ClearedBits(r, n - 1, j);
      WrittenChangesOnlyItsBit(Cleared(r, n - 1), n - 1, Low, j);
    }
  }

  /** The bus writes of switching channels 0 .. n - 1 off. */
  function OffWrites(n: nat): (w: seq<seq<bv8>>)
    requires n <= 4
    ensures |w| == n
    ensures forall k :: 0 <= k < n ==> w[k] == [RegDigitalOne, Payload(k, Low)]
  {
    seq(n, (k: nat) requires k < n => [RegDigitalOne, Payload(k, Low)])
  }

  /** The channel the auto-switch task turns on next. */
  function NextChannel(current: nat, max: nat): (n: nat)
    ensures n <= max
    ensures current < max ==> n == current + 1
    ensures current == max ==> n == 0
  {
    (current + 1) % (max + 1)
  }

  class Relay {
    var stub: bool
    var initialized: bool
    var model: bv8
    /** digital_reg. */
    var digital: bv8
    var wdtEnabled: bool
    var wdtTimeout: bv8
    var autoSwitch: bool
    /** Each write put on the bus: the register address followed by the data bytes. */
    var sent: seq<seq<bv8>>

    /** The watchdog is enabled exactly when a timeout in 1..254 is recorded. */
    predicate Valid()
      reads this
    {
      (wdtEnabled <==> wdtTimeout != 0) && wdtTimeout <= 254
    }

    /** The guard of every operation: initialised, or running on stub values. */
    predicate Ready()
      reads this
    {
      initialized || stub
    }

    constructor()
      ensures Valid() && !stub && !initialized && model == 0 && digital == 0
      ensures !wdtEnabled && wdtTimeout == 0 && !autoSwitch && sent == []
    {
      stub, initialized := false, false;
      model, digital := 0, 0;
      wdtEnabled, wdtTimeout := false, 0;
      autoSwitch := false;
      sent := [];
    }

    /**
     * trema_relay_init: write the model register address, read one byte.  A
     * failed transfer or an unknown ID switches to stub values; an unknown ID
     * is followed by a probe of the digital register that changes nothing.
     */
    method Init(writeOk: bool, readOk: bool, id: bv8) returns (ok: bool)
      requires Valid()
      modifies this
      ensures Valid()
      ensures ok <==> writeOk && readOk && AcceptedModel(id)
      ensures ok ==> initialized && !stub && model == id
      ensures !ok ==> stub && initialized == old(initialized) && model == old(model)
      ensures sent == old(sent) + [[RegModel]] + (if writeOk && readOk && !AcceptedModel(id) then [[RegDigitalAll]] else [])
      ensures digital == old(digital) && wdtEnabled == old(wdtEnabled) && wdtTimeout == old(wdtTimeout)
      ensures autoSwitch == old(autoSwitch)
    {
      sent := sent + [[RegModel]];
      if !writeOk || !readOk {
        stub := true;
        return false;
      }
      if !AcceptedModel(id) {
        sent := sent + [[RegDigitalAll]];
        stub := true;
        return false;
      }
      model := id;
      initialized := true;
      stub := false;
      return true;
    }

    /** trema_relay_digital_write. */
    method DigitalWrite(channel: nat, value: nat)
      requires channel < 256
      modifies this
      ensures channel > MaxChannel(old(model)) || !old(Ready()) ==> digital == old(digital) && sent == old(sent)
      ensures channel <= MaxChannel(old(model)) && old(Ready()) ==>
        && digital == Written(old(digital), channel, value)
        && sent == old(sent) + (if old(stub) then [] else [[RegDigitalOne, Payload(channel, value)]])
      ensures stub == old(stub) && initialized == old(initialized) && model == old(model)
      ensures wdtEnabled == old(wdtEnabled) && wdtTimeout == old(wdtTimeout) && autoSwitch == old(autoSwitch)
    {
      if channel > MaxChannel(model) {
        return;
      }
      if !initialized && !stub {
        return;
      }
      digital := Written(digital, channel, value);
      if stub {
        return;
      }
      sent := sent + [[RegDigitalOne, Payload(channel, value)]];
    }

    /**
     * trema_relay_digital_read: on the bus, write the address of the digital
     * register, then read one byte `reg`; the channel's bit is returned.
     */
    method DigitalRead(channel: nat, writeOk: bool, readOk: bool, reg: bv8) returns (v: bv8)
      requires channel < 256
      modifies this
      ensures v == 0 || v == 1
      ensures channel > MaxChannel(model) || !Ready() || stub ==> v == 0 && sent == old(sent)
      ensures channel <= MaxChannel(model) && initialized && !stub ==>
        && sent == old(sent) + [[RegDigitalAll]]
        && v == (if writeOk && readOk then Bit(reg, channel) else 0)
      ensures stub == old(stub) && initialized == old(initialized) && model == old(model) && digital == old(digital)
      ensures wdtEnabled == old(wdtEnabled) && wdtTimeout == old(wdtTimeout) && autoSwitch == old(autoSwitch)
    {
      if channel > MaxChannel(model) {
        return 0;
      }
      if !initialized && !stub {
        return 0;
      }
      if stub {
        return 0;
      }
      sent := sent + [[RegDigitalAll]];
      if !writeOk || !readOk {
        return 0;
      }
      return Bit(reg, channel);
    }

    /** trema_relay_enable_wdt: only timeouts of 1..254 seconds are accepted. */
    method EnableWdt(timeout: bv8, busOk: bool) returns (ok: bool)
      requires Valid()
      modifies this
      ensures Valid()
      ensures ok <==> 1 <= timeout <= 254 && Ready() && (stub || busOk)
      ensures ok ==> wdtEnabled && wdtTimeout == timeout
      ensures !ok ==> wdtEnabled == old(wdtEnabled) && wdtTimeout == old(wdtTimeout)
      ensures sent == old(sent) + (if 1 <= timeout <= 254 && Ready() && !stub then [[RegWdt, timeout]] else [])
      ensures stub == old(stub) && initialized == old(initialized) && model == old(model) && digital == old(digital)
      ensures autoSwitch == old(autoSwitch)
    {
      if timeout < 1 || timeout > 254 {
        return false;
      }
      if !initialized && !stub {
        return false;
      }
      if stub {
        wdtEnabled, wdtTimeout := true, timeout;
        return true;
      }
      sent := sent + [[RegWdt, timeout]];
      if !busOk {
        return false;
      }
      wdtEnabled, wdtTimeout := true, timeout;
      return true;
    }

    /** trema_relay_disable_wdt: a zero timeout is written to the watchdog register. */
    method DisableWdt(busOk: bool) returns (ok: bool)
      requires Valid()
      modifies this
      ensures Valid()
      ensures ok <==> Ready() && (stub || busOk)
      ensures ok ==> !wdtEnabled && wdtTimeout == 0
      ensures !ok ==> wdtEnabled == old(wdtEnabled) && wdtTimeout == old(wdtTimeout)
      ensures sent == old(sent) + (if Ready() && !stub then [[RegWdt, 0]] else [])
      ensures stub == old(stub) && initialized == old(initialized) && model == old(model) && digital == old(digital)
      ensures autoSwitch == old(autoSwitch)
    {
      if !initialized && !stub {
        return false;
      }
      if stub {
        wdtEnabled, wdtTimeout := false, 0;
        return true;
      }
      sent := sent + [[RegWdt, 0]];
      if !busOk {
        return false;
      }
      wdtEnabled, wdtTimeout := false, 0;
      return true;
    }

    /** trema_relay_reset_wdt: rewrite the recorded timeout; nothing to do while the watchdog is off. */
    method ResetWdt(busOk: bool) returns (ok: bool)
      requires Valid()
      modifies this
      ensures ok <==> Ready() && (!wdtEnabled || stub || busOk)
      ensures sent == old(sent) + (if Ready() && wdtEnabled && !stub then [[RegWdt, wdtTimeout]] else [])
      ensures stub == old(stub) && initialized == old(initialized) && model == old(model) && digital == old(digital)
      ensures wdtEnabled == old(wdtEnabled) && wdtTimeout == old(wdtTimeout) && autoSwitch == old(autoSwitch)
    {
      if !initialized && !stub {
        return false;
      }
      if !wdtEnabled {
        return true;
      }
      if stub {
        return true;
      }
      sent := sent + [[RegWdt, wdtTimeout]];
      return busOk;
    }

    /** trema_relay_get_state_wdt. */
    function StateWdt(): bool
      reads this
    {
      wdtEnabled
    }

    /** trema_relay_is_using_stub_values. */
    function UsingStub(): bool
      reads this
    {
      stub
    }

    /** trema_relay_auto_switch: `created` is whether xTaskCreate succeeded. */
    method AutoSwitch(enable: bool, created: bool)
      modifies this
      ensures !old(Ready()) ==> autoSwitch == old(autoSwitch)
      ensures old(Ready()) && enable && !old(autoSwitch) ==> autoSwitch == created
      ensures old(Ready()) && !enable ==> !autoSwitch
      ensures old(Ready()) && enable && old(autoSwitch) ==> autoSwitch
      ensures stub == old(stub) && initialized == old(initialized) && model == old(model) && digital == old(digital)
      ensures wdtEnabled == old(wdtEnabled) && wdtTimeout == old(wdtTimeout) && sent == old(sent)
    {
      if !initialized && !stub {
        return;
      }
      if enable && !autoSwitch {
        autoSwitch := created;
      } else if !enable && autoSwitch {
        autoSwitch := false;
      }
    }

    /** The auto-switch task's "turn off all channels" loop, also run when the task stops. */
    method AllOff()
      modifies this
      ensures Ready() ==> digital == Cleared(old(digital), MaxChannel(model) + 1)
      ensures Ready() ==> sent == old(sent) + (if stub then [] else OffWrites(MaxChannel(model) + 1))
      ensures !Ready() ==> digital == old(digital) && sent == old(sent)
      ensures stub == old(stub) && initialized == old(initialized) && model == old(model)
      ensures wdtEnabled == old(wdtEnabled) && wdtTimeout == old(wdtTimeout) && autoSwitch == old(autoSwitch)
    {
      var max := MaxChannel(model);
      var i := 0;
      while i <= max
        invariant 0 <= i <= max + 1
        invariant stub == old(stub) && initialized == old(initialized) && model == old(model)
        invariant wdtEnabled == old(wdtEnabled) && wdtTimeout == old(wdtTimeout) && autoSwitch == old(autoSwitch)
        invariant Ready() ==> digital == Cleared(old(digital), i)
        invariant Ready() ==> sent == old(sent) + (if stub then [] else OffWrites(i))
        invariant !Ready() ==> digital == old(digital) && sent == old(sent)
      {
        DigitalWrite(i, Low);
        assert OffWrites(i + 1) == OffWrites(i) + [[RegDigitalOne, Payload(i, Low)]];
        i := i + 1;
      }
    }

    /**
     * One round of the auto-switch task: every channel off, then channel
     * `current` on; the result is the channel for the next round.
     */
    method AutoSwitchRound(current: nat) returns (next: nat)
      requires current <= MaxChannel(model)
      modifies this
      ensures next == NextChannel(current, MaxChannel(model))
      ensures Ready() ==> digital == Written(Cleared(old(digital), MaxChannel(model) + 1), current, High)
      ensures Ready() ==> sent == old(sent) + (if stub then [] else OffWrites(MaxChannel(model) + 1) + [[RegDigitalOne, Payload(current, High)]])
      ensures !Ready() ==> digital == old(digital) && sent == old(sent)
      ensures stub == old(stub) && initialized == old(initialized) && model == old(model)
      ensures wdtEnabled == old(wdtEnabled) && wdtTimeout == old(wdtTimeout) && autoSwitch == old(autoSwitch)
    {
      AllOff();
      DigitalWrite(current, High);
      next := NextChannel(current, MaxChannel(model));
    }
  }

  /** After a round exactly the chosen channel is on among the relay's channels. */
  lemma RoundLeavesOneChannelOn(r: bv8, max: nat, current: nat, j: nat)
    requires max <= 3 && current <= max && j <= max
    ensures Bit(Written(Cleared(r, max + 1), current, High), j) == (if j == current then 1 else 0)
  {
    ClearedBits(r, max + 1, j);
    WrittenChangesOnlyItsBit(Cleared(r, max + 1), current, High, j);
  }
}
