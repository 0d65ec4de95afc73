/**
 * The dosing and lighting automation of components/automation_controller:
 * the lighting schedule, per-pump cooldowns, the pH acid/base decision and
 * round-robin EC dosing.  The relay and pump drivers are observed through
 * the list of actions the controller issues; the clock and the current hour
 * are parameters.
 */
module AutomationController {

  import opened Wrappers
  import HydroSettings

  type Settings = HydroSettings.Settings

  datatype Pins = Pins(
    acidIa: int, acidIb: int, baseIa: int, baseIb: int,
    ecAIa: int, ecAIb: int, ecBIa: int, ecBIb: int, ecCIa: int, ecCIb: int)

  datatype Channel = Channel(ia: int, ib: int, name: string)

  /** What the controller asks of the drivers. */
  datatype Action = RelayAutoSwitchOff | RelayWrite(on: bool) | PumpRun(ia: int, ib: int, durationMs: nat)

  /** A float reading; NaN and the infinities are NotFinite. */
  datatype Reading = Finite(value: real) | NotFinite

  datatype SensorData = SensorData(ph: Reading, ec: Reading)

  /** pins_valid. */
  predicate PinsValid(ia: int, ib: int) { ia >= 0 && ib >= 0 }

  /** schedule_active. */
  predicate ScheduleActive(onHour: nat, offHour: nat, hour: nat)
  {
    if onHour == offHour then true
    else if onHour < offHour then onHour <= hour < offHour
    else hour >= onHour || hour < offHour
  }

  /** The lights are on for the hours from onHour up to, not including, offHour on a 24-hour clock. */
  lemma ScheduleIsClockWindow(onHour: nat, offHour: nat, hour: nat)
    requires onHour < 24 && offHour < 24 && hour < 24 && onHour != offHour
    ensures ScheduleActive(onHour, offHour, hour) <==> (hour - onHour + 24) % 24 < (offHour - onHour + 24) % 24
  {
    var d := (hour - onHour + 24) % 24;
    var w := (offHour - onHour + 24) % 24;
    assert d == if hour >= onHour then hour - onHour else hour - onHour + 24;
    assert w == if offHour >= onHour then offHour - onHour else offHour - onHour + 24;
  }

  /** Swapping the on and off hours gives the complementary schedule. */
  lemma ScheduleSwapIsComplement(onHour: nat, offHour: nat, hour: nat)
    requires onHour != offHour
    ensures ScheduleActive(offHour, onHour, hour) == !ScheduleActive(onHour, offHour, hour)
  {
  }

  /** cooldown_elapsed, with the cooldown in seconds. */
  predicate CooldownElapsed(nowMs: int, lastMs: int, cooldownS: nat)
  {
    cooldownS * 1000 == 0 || lastMs == 0 || nowMs - lastMs >= cooldownS * 1000
  }

  /** A pump that has dosed at `last` may dose again exactly from last + cooldown on. */
  lemma CooldownThreshold(nowMs: int, lastMs: int, cooldownS: nat)
    requires lastMs != 0 && cooldownS > 0
    ensures CooldownElapsed(nowMs, lastMs, cooldownS) <==> nowMs >= lastMs + cooldownS * 1000
  {
  }

  /** run_pump: a pump whose pins are not configured is skipped. */
  function RunPump(c: Channel, durationMs: nat): (r: seq<Action>)
    ensures |r| <= 1
    ensures r != [] <==> PinsValid(c.ia, c.ib)
    ensures r != [] ==> r[0] == PumpRun(c.ia, c.ib, durationMs)
  {
    if PinsValid(c.ia, c.ib) then [PumpRun(c.ia, c.ib, durationMs)] else []
  }

  /** The EC candidates in A, B, C order. */
  function Candidates(p: Pins): seq<Channel>
  {
    [Channel(p.ecAIa, p.ecAIb, "EC A"), Channel(p.ecBIa, p.ecBIb, "EC B"), Channel(p.ecCIa, p.ecCIb, "EC C")]
  }

  /** The candidates whose pins are valid, in order. */
  function ValidChannels(cs: seq<Channel>): (r: seq<Channel>)
    ensures |r| <= |cs|
  {
    if cs == [] then []
    else ValidChannels(cs[..|cs| - 1]) + (if PinsValid(cs[|cs| - 1].ia, cs[|cs| - 1].ib) then [cs[|cs| - 1]] else [])
  }

  /** The kept channels are exactly the candidates with valid pins. */
  lemma {:induction false} ValidChannelsAreTheValidOnes(cs: seq<Channel>, c: Channel)
    ensures c in ValidChannels(cs) <==> c in cs && PinsValid(c.ia, c.ib)
  {
    if cs != [] {
      ValidChannelsAreTheValidOnes(cs[..|cs| - 1], c);
      assert cs == cs[..|cs| - 1] + [cs[|cs| - 1]];
    }
  }

  /** The cursor step of next_ec_channel: one on, wrapping to the first channel. */
  function Step(i: nat, count: nat): (r: nat)
    requires i < count
    ensures r < count
  {
    if i + 1 < count then i + 1 else 0
  }

  /** The channel index after k doses starting at i. */
  function Advance(i: nat, k: nat, count: nat): (r: nat)
    requires i < count
    ensures r < count
  {
    if k == 0 then i else Step(Advance(i, k - 1, count), count)
  }

  /** The increment-modulo of the source is Step. */
  lemma StepIsIncrementModulo(i: nat, count: nat)
    requires i < count
    ensures (i + 1) % count == Step(i, count)
  {
    if i + 1 == count {
      assert (i + 1) % count == 0;
    } else {
      assert (i + 1) % count == i + 1;
    }
  }

  lemma {:induction false} AdvanceIs(i: nat, k: nat, count: nat)
    requires i < count && k <= count
    ensures Advance(i, k, count) == if i + k < count then i + k else i + k - count
  {
    if k > 0 {
      AdvanceIs(i, k - 1, count);
    }
  }

  /** Round-robin: any `count` consecutive EC doses use every channel exactly once, then come back. */
  lemma RoundRobinVisitsEachOnce(i: nat, count: nat, k1: nat, k2: nat)
    requires i < count && k1 < k2 < count
    ensures Advance(i, k1, count) != Advance(i, k2, count)
    ensures Advance(i, count, count) == i
  {
    AdvanceIs(i, k1, count);
    AdvanceIs(i, k2, count);
    AdvanceIs(i, count, count);
  }

  /** What one pH branch of automation_controller_update does: the runs it issues and the new last-dose times. */
  datatype PhStep = PhStep(runs: seq<Action>, lastAcidMs: int, lastBaseMs: int)

  /** What one EC branch does: the runs it issues, the new last-dose time and the channel cursor. */
  datatype EcStep = EcStep(runs: seq<Action>, lastEcMs: int, cursor: nat)

  /**
   * The pH branch: acid when pH is above target plus tolerance, else base
   * when it is below target minus tolerance, each only with valid pins and
   * after its own cooldown.  At most one pump runs.
   */
  function PhDose(s: Settings, p: Pins, ph: real, nowMs: int, lastAcid: int, lastBase: int): (r: PhStep)
    ensures |r.runs| <= 1
    ensures var acid := ph > s.targetPh + s.phTolerance && PinsValid(p.acidIa, p.acidIb);
            var base := !acid && ph < s.targetPh - s.phTolerance && PinsValid(p.baseIa, p.baseIb);
      (acid && CooldownElapsed(nowMs, lastAcid, s.dosingCooldownS) ==>
         r == PhStep([PumpRun(p.acidIa, p.acidIb, s.dosingDurationMs)], nowMs, lastBase))
      && (base && CooldownElapsed(nowMs, lastBase, s.dosingCooldownS) ==>
         r == PhStep([PumpRun(p.baseIa, p.baseIb, s.dosingDurationMs)], lastAcid, nowMs))
      && (!(acid && CooldownElapsed(nowMs, lastAcid, s.dosingCooldownS))
          && !(base && CooldownElapsed(nowMs, lastBase, s.dosingCooldownS)) ==>
         r == PhStep([], lastAcid, lastBase))
  {
    if ph > s.targetPh + s.phTolerance && PinsValid(p.acidIa, p.acidIb) then
      if CooldownElapsed(nowMs, lastAcid, s.dosingCooldownS)
      then PhStep([PumpRun(p.acidIa, p.acidIb, s.dosingDurationMs)], nowMs, lastBase)
      else PhStep([], lastAcid, lastBase)
    else if ph < s.targetPh - s.phTolerance && PinsValid(p.baseIa, p.baseIb) then
      if CooldownElapsed(nowMs, lastBase, s.dosingCooldownS)
      then PhStep([PumpRun(p.baseIa, p.baseIb, s.dosingDurationMs)], lastAcid, nowMs)
      else PhStep([], lastAcid, lastBase)
    else PhStep([], lastAcid, lastBase)
  }

  /**
   * The EC branch: below target minus tolerance, with a non-zero duration
   * and after the cooldown, the channel at the cursor doses and the cursor
   * moves on round-robin; otherwise nothing changes.
   */
  function EcDose(s: Settings, channels: seq<Channel>, cursor: nat, ec: real, nowMs: int, lastEc: int): (r: EcStep)
    requires if |channels| == 0 then cursor == 0 else cursor < |channels|
    ensures |r.runs| <= 1
    ensures |channels| > 0 ==> r.cursor < |channels|
    ensures var wants := ec < s.targetEc - s.ecTolerance && s.dosingDurationMs > 0
                         && CooldownElapsed(nowMs, lastEc, s.dosingCooldownS);
      (wants && |channels| > 0 ==>
         r.lastEcMs == nowMs && r.cursor == Step(cursor, |channels|)
         && (r.runs != [] <==> PinsValid(channels[cursor].ia, channels[cursor].ib))
         && (r.runs != [] ==> r.runs[0] == PumpRun(channels[cursor].ia, channels[cursor].ib, s.dosingDurationMs)))
      && (!(wants && |channels| > 0) ==> r == EcStep([], lastEc, cursor))
  {
    if ec < s.targetEc - s.ecTolerance && s.dosingDurationMs > 0 && CooldownElapsed(nowMs, lastEc, s.dosingCooldownS)
       && |channels| > 0
    then EcStep(RunPump(channels[cursor], s.dosingDurationMs), nowMs, Step(cursor, |channels|))
    else EcStep([], lastEc, cursor)
  }

  class Controller {
    var pins: Pins
    var settings: Settings
    var initialized: bool
    var lastAcidMs: int
    var lastBaseMs: int
    var lastEcMs: int
    var ecChannels: array<Channel>
    var ecChannelCount: nat
    var nextEcChannel: nat
    var lightingKnown: bool
    var lightingOn: bool
    var timeWarningLogged: bool
    var relayAutoForcedOff: bool
    var actions: seq<Action>

    predicate Valid()
      reads this
    {
      ecChannels.Length == 3 && ecChannelCount <= 3
      && (ecChannelCount > 0 ==> nextEcChannel < ecChannelCount)
      && (ecChannelCount == 0 ==> nextEcChannel == 0)
    }

    function Channels(): (cs: seq<Channel>)
      reads this, ecChannels
      requires Valid()
    {
      ecChannels[..ecChannelCount]
    }

    constructor(p: Pins, s: Settings)
      ensures Valid() && !initialized && pins == p && settings == s && actions == [] && Channels() == []
    {
      pins := p;
      settings := s;
      initialized := false;
      lastAcidMs, lastBaseMs, lastEcMs := 0, 0, 0;
      ecChannels := new Channel[3](_ => Channel(-1, -1, ""));
      ecChannelCount, nextEcChannel := 0, 0;
      lightingKnown, lightingOn, timeWarningLogged, relayAutoForcedOff := false, false, false, false;
      actions := [];
    }

    /** prime_ec_channels: keep the pin-valid channels in A, B, C order and restart at the first. */
    method PrimeEcChannels()
      requires Valid()
      modifies this, ecChannels
      ensures Valid() && ecChannels == old(ecChannels)
      ensures Channels() == ValidChannels(Candidates(pins)) && nextEcChannel == 0
      ensures pins == old(pins) && settings == old(settings) && actions == old(actions)
      ensures initialized == old(initialized) && lightingKnown == old(lightingKnown) && lightingOn == old(lightingOn)
      ensures lastAcidMs == old(lastAcidMs) && lastBaseMs == old(lastBaseMs) && lastEcMs == old(lastEcMs)
      ensures relayAutoForcedOff == old(relayAutoForcedOff) && timeWarningLogged == old(timeWarningLogged)
    {
      var cands := Candidates(pins);
      var a := ecChannels;
      var n := 0;
      for i := 0 to 3
        modifies a
        invariant n <= i && a[..n] == ValidChannels(cands[..i])
      {
        assert cands[..i + 1][..i] == cands[..i];
        assert ValidChannels(cands[..i + 1])
               == ValidChannels(cands[..i]) + (if PinsValid(cands[i].ia, cands[i].ib) then [cands[i]] else []);
        if PinsValid(cands[i].ia, cands[i].ib) {
          ghost var kept := a[..n];
          a[n] := cands[i];
          assert a[..n + 1] == kept + [cands[i]];
          n := n + 1;
        }
      }
      assert cands[..3] == cands;
      ecChannelCount := n;
      nextEcChannel := 0;
    }

    /** next_ec_channel: the channel at the cursor, which then advances modulo the count. */
    method NextEcChannel() returns (c: Option<Channel>)
      requires Valid()
      modifies this
      ensures Valid() && ecChannels == old(ecChannels)
      ensures old(ecChannelCount) == 0 ==> c.None? && nextEcChannel == old(nextEcChannel)
      ensures old(ecChannelCount) > 0 ==>
        c == Some(ecChannels[old(nextEcChannel)])
        && nextEcChannel == Step(old(nextEcChannel), old(ecChannelCount))
      ensures pins == old(pins) && settings == old(settings) && actions == old(actions) && ecChannelCount == old(ecChannelCount)
      ensures initialized == old(initialized) && lightingKnown == old(lightingKnown) && lightingOn == old(lightingOn)
      ensures lastAcidMs == old(lastAcidMs) && lastBaseMs == old(lastBaseMs) && lastEcMs == old(lastEcMs)
      ensures relayAutoForcedOff == old(relayAutoForcedOff) && timeWarningLogged == old(timeWarningLogged)
    {
      if ecChannelCount == 0 {
        return None;
      }
      c := Some(ecChannels[nextEcChannel]);
      StepIsIncrementModulo(nextEcChannel, ecChannelCount);
      nextEcChannel := (nextEcChannel + 1) % ecChannelCount;
    }

    /** set_lighting_output: the relay is written only when the state is unknown or differs. */
    method SetLightingOutput(on: bool)
      modifies this
      ensures lightingKnown && lightingOn == on
      ensures actions == old(actions) + (if old(lightingKnown) && old(lightingOn) == on then [] else [RelayWrite(on)])
      ensures pins == old(pins) && settings == old(settings) && initialized == old(initialized)
      ensures ecChannels == old(ecChannels) && ecChannelCount == old(ecChannelCount) && nextEcChannel == old(nextEcChannel)
      ensures lastAcidMs == old(lastAcidMs) && lastBaseMs == old(lastBaseMs) && lastEcMs == old(lastEcMs)
      ensures relayAutoForcedOff == old(relayAutoForcedOff) && timeWarningLogged == old(timeWarningLogged)
    {
      if lightingKnown && lightingOn == on {
        return;
      }
      actions := actions + [RelayWrite(on)];
      lightingOn := on;
      lightingKnown := true;
    }

    /** The lighting state update_lighting_state aims for at `hour`. */
    function DesiredLighting(hour: nat): bool
      reads this
    {
      if settings.lightingAutoMode
      then ScheduleActive(settings.lightingOnHour, settings.lightingOffHour, hour)
      else settings.lightingManualState
    }

    /**
     * update_lighting_state.  `hour` is what get_current_hour produced and
     * `rtcValid` whether it came from the real-time clock.
     */
    method UpdateLighting(force: bool, hour: nat, rtcValid: bool)
      requires Valid()
      modifies this
      ensures Valid()
      ensures lightingKnown && lightingOn == DesiredLighting(hour)
      ensures relayAutoForcedOff
      ensures actions == old(actions) + (if old(relayAutoForcedOff) then [] else [RelayAutoSwitchOff])
                       + (if old(lightingKnown) && old(lightingOn) == DesiredLighting(hour) then [] else [RelayWrite(DesiredLighting(hour))])
      ensures pins == old(pins) && settings == old(settings) && initialized == old(initialized)
      ensures ecChannels == old(ecChannels) && ecChannelCount == old(ecChannelCount) && nextEcChannel == old(nextEcChannel)
      ensures lastAcidMs == old(lastAcidMs) && lastBaseMs == old(lastBaseMs) && lastEcMs == old(lastEcMs)
    {
      if !relayAutoForcedOff {
        actions := actions + [RelayAutoSwitchOff];
        relayAutoForcedOff := true;
      }
      if !settings.lightingAutoMode {
        if force || !lightingKnown || lightingOn != settings.lightingManualState {
          SetLightingOutput(settings.lightingManualState);
        }
        return;
      }
      if !rtcValid && !timeWarningLogged {
        timeWarningLogged := true;
      }
      var shouldEnable := ScheduleActive(settings.lightingOnHour, settings.lightingOffHour, hour);
      if force || !lightingKnown || lightingOn != shouldEnable {
        SetLightingOutput(shouldEnable);
      }
    }

    /** The pH branch of automation_controller_update: at most one of acid and base runs. */
    method DosePh(ph: real, nowMs: int)
      requires Valid()
      modifies this
      ensures Valid()
      ensures var r := PhDose(settings, pins, ph, nowMs, old(lastAcidMs), old(lastBaseMs));
        actions == old(actions) + r.runs && lastAcidMs == r.lastAcidMs && lastBaseMs == r.lastBaseMs
      ensures pins == old(pins) && settings == old(settings) && initialized == old(initialized)
      ensures ecChannels == old(ecChannels) && ecChannelCount == old(ecChannelCount) && nextEcChannel == old(nextEcChannel)
      ensures lastEcMs == old(lastEcMs) && lightingKnown == old(lightingKnown) && lightingOn == old(lightingOn)
    {
      var high := settings.targetPh + settings.phTolerance;
      var low := settings.targetPh - settings.phTolerance;
      if ph > high && PinsValid(pins.acidIa, pins.acidIb) {
        if CooldownElapsed(nowMs, lastAcidMs, settings.dosingCooldownS) {
          actions := actions + [PumpRun(pins.acidIa, pins.acidIb, settings.dosingDurationMs)];
          lastAcidMs := nowMs;
        }
      } else if ph < low && PinsValid(pins.baseIa, pins.baseIb) {
        if CooldownElapsed(nowMs, lastBaseMs, settings.dosingCooldownS) {
          actions := actions + [PumpRun(pins.baseIa, pins.baseIb, settings.dosingDurationMs)];
          lastBaseMs := nowMs;
        }
      }
    }

    /** The EC branch: below target−tolerance, dose from the next channel in turn. */
    method DoseEc(ec: real, nowMs: int)
      requires Valid()
      modifies this
      ensures Valid()
      ensures var r := EcDose(settings, old(Channels()), old(nextEcChannel), ec, nowMs, old(lastEcMs));
        actions == old(actions) + r.runs && lastEcMs == r.lastEcMs && nextEcChannel == r.cursor
      ensures pins == old(pins) && settings == old(settings) && initialized == old(initialized)
      ensures ecChannels == old(ecChannels) && ecChannelCount == old(ecChannelCount)
      ensures lastAcidMs == old(lastAcidMs) && lastBaseMs == old(lastBaseMs)
      ensures lightingKnown == old(lightingKnown) && lightingOn == old(lightingOn)
    {
      if ec < settings.targetEc - settings.ecTolerance && settings.dosingDurationMs > 0 {
        if CooldownElapsed(nowMs, lastEcMs, settings.dosingCooldownS) {
          var channel := NextEcChannel();
          if channel.Some? {
            actions := actions + RunPump(channel.value, settings.dosingDurationMs);
            lastEcMs := nowMs;
          }
        }
      }
    }

    /** automation_controller_init; None is a NULL argument. */
    method Init(p: Option<Pins>, s: Option<Settings>, hour: nat, rtcValid: bool)
      requires Valid()
      modifies this, ecChannels
      ensures Valid() && ecChannels == old(ecChannels)
      ensures p.None? || s.None? ==> unchanged(this) && unchanged(ecChannels)
      ensures p.Some? && s.Some? ==>
        initialized && pins == p.value && settings == s.value
        && Channels() == ValidChannels(Candidates(pins)) && nextEcChannel == 0
        && lastAcidMs == 0 && lastBaseMs == 0 && lastEcMs == 0
        && lightingKnown && lightingOn == DesiredLighting(hour)
        && actions == old(actions) + [RelayAutoSwitchOff, RelayWrite(DesiredLighting(hour))]
    {
      if p.None? || s.None? {
        return;
      }
      pins := p.value;
      settings := s.value;
      PrimeEcChannels();
      StartAutomation(hour, rtcValid);
    }

    /** The tail of automation_controller_init: dose times and lighting state cleared, lighting forced. */
    method StartAutomation(hour: nat, rtcValid: bool)
      requires Valid()
      modifies this
      ensures Valid() && initialized
      ensures lastAcidMs == 0 && lastBaseMs == 0 && lastEcMs == 0
      ensures lightingKnown && lightingOn == DesiredLighting(hour)
      ensures actions == old(actions) + [RelayAutoSwitchOff, RelayWrite(DesiredLighting(hour))]
      ensures pins == old(pins) && settings == old(settings)
      ensures ecChannels == old(ecChannels) && ecChannelCount == old(ecChannelCount) && nextEcChannel == old(nextEcChannel)
    {
      lastAcidMs, lastBaseMs, lastEcMs := 0, 0, 0;
      lightingKnown := false;
      timeWarningLogged := false;
      relayAutoForcedOff := false;
      UpdateLighting(true, hour, rtcValid);
      initialized := true;
    }

    /** automation_controller_apply_settings. */
    method ApplySettings(s: Option<Settings>, hour: nat, rtcValid: bool)
      requires Valid()
      modifies this, ecChannels
      ensures Valid() && ecChannels == old(ecChannels)
      ensures s.None? ==> unchanged(this) && unchanged(ecChannels)
      ensures s.Some? ==>
        settings == s.value && Channels() == ValidChannels(Candidates(pins)) && nextEcChannel == 0
        && lightingKnown && lightingOn == DesiredLighting(hour)
        && actions == old(actions) + [RelayAutoSwitchOff]
                      + (if old(lightingKnown) && old(lightingOn) == DesiredLighting(hour) then [] else [RelayWrite(DesiredLighting(hour))])
        && lastAcidMs == old(lastAcidMs) && lastBaseMs == old(lastBaseMs) && lastEcMs == old(lastEcMs)
        && initialized == old(initialized)
    {
      if s.None? {
        return;
      }
      settings := s.value;
      PrimeEcChannels();
      relayAutoForcedOff := false;
      UpdateLighting(true, hour, rtcValid);
    }

    /**
     * automation_controller_update.  Nothing happens when uninitialised or
     * given no data; lighting is always refreshed; dosing needs auto dosing
     * on and finite pH and EC readings.
     */
    method Update(data: Option<SensorData>, nowMs: int, hour: nat, rtcValid: bool)
      requires Valid()
      modifies this
      ensures Valid()
      ensures !old(initialized) || data.None? ==> unchanged(this)
      ensures old(initialized) && data.Some? ==>
        lightingKnown && lightingOn == DesiredLighting(hour)
        && |actions| >= |old(actions)|
        && (!settings.autoDosingEnabled || data.value.ph.NotFinite? || data.value.ec.NotFinite? ==>
              lastAcidMs == old(lastAcidMs) && lastBaseMs == old(lastBaseMs) && lastEcMs == old(lastEcMs)
              && nextEcChannel == old(nextEcChannel)
              && forall i :: |old(actions)| <= i < |actions| ==> !actions[i].PumpRun?)
      ensures old(initialized) && data.Some? ==>
        var light := (if old(relayAutoForcedOff) then [] else [RelayAutoSwitchOff])
                     + (if old(lightingKnown) && old(lightingOn) == DesiredLighting(hour) then [] else [RelayWrite(DesiredLighting(hour))]);
        if settings.autoDosingEnabled && data.value.ph.Finite? && data.value.ec.Finite? then
          var ph := PhDose(settings, pins, data.value.ph.value, nowMs, old(lastAcidMs), old(lastBaseMs));
          var ec := EcDose(settings, old(Channels()), old(nextEcChannel), data.value.ec.value, nowMs, old(lastEcMs));
          actions == old(actions) + light + ph.runs + ec.runs
          && lastAcidMs == ph.lastAcidMs && lastBaseMs == ph.lastBaseMs
          && lastEcMs == ec.lastEcMs && nextEcChannel == ec.cursor
        else
          actions == old(actions) + light
      ensures pins == old(pins) && settings == old(settings) && initialized == old(initialized)
      ensures ecChannels == old(ecChannels) && ecChannelCount == old(ecChannelCount)
    {
      if !initialized || data.None? {
        return;
      }
      UpdateLighting(false, hour, rtcValid);
      if !settings.autoDosingEnabled {
        return;
      }
      if data.value.ph.NotFinite? || data.value.ec.NotFinite? {
        return;
      }
      DosePh(data.value.ph.value, nowMs);
      DoseEc(data.value.ec.value, nowMs);
    }
  }
}
