/**
 * The "neat" repeater UI (examples/simple_repeater/ui-neat/UITask.cpp): the button level is read
 * on every `loop` call and drives a hibernation machine, with no uptime or screen gate.
 * - Holding for 5 s arms a power-off and shows a warning.
 * - Releasing while armed powers the board off.
 * - Holding on to 8 s cancels it.
 *
 * While a power-off is armed nothing else runs. Otherwise the display is redrawn once a second
 * and switched off after 15 s. With `AUTO_SHUTDOWN_MILLIVOLTS`, the battery is checked every 8 s.
 * With `WITH_MQTT_BRIDGE`, the home screen alternates between the node name and the WiFi address
 * every 5 s.
 */
module NeatRepeater {
  import opened Common
  import opened Display
  import Labels

  const AUTO_OFF_MILLIS: nat := 15000
  const BOOT_SCREEN_MILLIS: nat := 4000
  const LONG_PRESS_MILLIS: nat := 5000
  const HIBERNATE_CANCEL_MILLIS: nat := 3000
  const DISPLAY_SWITCH_MILLIS: nat := 5000
  const REFRESH_MILLIS: nat := 1000
  const BATT_CHECK_MILLIS: nat := 8000

  /** The build options the file reads: `PIN_BUZZER`, `WITH_MQTT_BRIDGE`, `AUTO_SHUTDOWN_MILLIVOLTS`. */
  datatype Config = Config(buzzer: bool, mqttBridge: bool, autoShutdownMillivolts: Option<nat>)

  datatype Tune = HibernateTune | CancelTune

  /** What the UI does outside its own fields. */
  datatype Event = Rebooted | RadioPoweredOff | BoardPoweredOff | HibernationWarningShown | Melody(Tune)

  /** Line 17 of the home screen. */
  datatype NameLine = NodeName | IpAddress | WifiDisconnected

  /** What one `renderCurrScreen` shows. */
  datatype Frame = BootFrame(version: string) | HomeFrame(nameLine: NameLine, batteryPct: int, fillWidth: int)

  datatype Timers = Timers(nextRefresh: nat, autoOff: nat, nextBattCheck: nat)

  /** `_button_press_start`, `_button_was_pressed` and `_hibernation_pending`. */
  datatype Hold = Hold(pressStart: nat, wasPressed: bool, pending: bool)

  /** `_prevBtnState` (true for HIGH) and `_press_start`, which `begin` resets and nothing else reads. */
  datatype Legacy = Legacy(prevHigh: bool, pressStart: nat)

  /** The globals `_show_ip` and `_next_display_switch`. */
  datatype IpSwitch = IpSwitch(showIp: bool, nextSwitch: nat)

  /** The globals `_battery_mv` and `batteryPercentage`. */
  datatype Battery = Battery(milliVolts: nat, percentage: int)

  datatype NeatState = NeatState(displayOn: bool, timers: Timers, hold: Hold, legacy: Legacy, ip: IpSwitch,
                                 battery: Battery, version: string, events: seq<Event>)

  /**
   * The inputs of one `loop` call: the clock, `isButtonPressed()`, the WiFi link and one battery
   * reading, which both the home screen and the low-battery check see.
   */
  datatype Tick = Tick(now: nat, pressed: bool, wifiConnected: bool, battMilliVolts: nat)

  /** The state and the frame drawn, if any, after one `loop` call. */
  datatype Outcome = Outcome(state: NeatState, frame: Option<Frame>)

  function Log(s: NeatState, evs: seq<Event>): NeatState {
    s.(events := s.events + evs)
  }

  /** Press and hibernation tracking cleared. */
  function ClearHold(s: NeatState): NeatState {
    s.(hold := Hold(0, false, false))
  }

  function AutoOffAt(s: NeatState, t: nat): NeatState {
    s.(timers := s.timers.(autoOff := t))
  }

  /** `begin`: button and hibernation tracking cleared, auto-off 15 s away, the display on. */
  function BeginStep(s: NeatState, firmwareVersion: string, now: nat): (r: NeatState)
    ensures r.displayOn && r.hold == Hold(0, false, false) && r.legacy == Legacy(true, 0)
    ensures r.timers.autoOff == now + AUTO_OFF_MILLIS
    ensures r.version <= firmwareVersion && '-' !in r.version
    ensures |r.version| < |firmwareVersion| ==> firmwareVersion[|r.version|] == '-'
  {
    var s1 := ClearHold(AutoOffAt(s.(legacy := Legacy(true, 0)), now + AUTO_OFF_MILLIS));
    s1.(displayOn := true, version := Labels.UpToDash(firmwareVersion))
  }

  /** `shutdown(restart)`: a reboot, or display, radio and board off. */
  function ShutdownStep(s: NeatState, restart: bool): NeatState {
    if restart then Log(s, [Rebooted])
    else Log(s.(displayOn := false), [RadioPoweredOff, BoardPoweredOff])
  }

  // ---------------------------------------------------------------------------------------
  // handleHibernation

  /** A press begins: the hold clock starts, and the display wakes for 15 s. */
  function PressStart(s: NeatState, now: nat): NeatState {
    s.(displayOn := true, hold := s.hold.(pressStart := now, wasPressed := true),
       timers := s.timers.(autoOff := now + AUTO_OFF_MILLIS))
  }

  /** A release: the press is forgotten, and an armed power-off is carried out. */
  function ReleaseStep(s: NeatState): NeatState {
    var s1 := ClearHold(s);
    if s.hold.pending then ShutdownStep(s1, false) else s1
  }

  /** Held for 5 s with nothing armed: arm, give the warning 3 s more of display, show it and play the tune. */
  function ArmStep(c: Config, s: NeatState, now: nat): NeatState {
    if Elapsed(now, s.hold.pressStart) >= LONG_PRESS_MILLIS && !s.hold.pending then
      Log(s.(hold := s.hold.(pending := true),
             timers := s.timers.(autoOff := now + AUTO_OFF_MILLIS + HIBERNATE_CANCEL_MILLIS)),
          [HibernationWarningShown] + (if c.buzzer then [Melody(HibernateTune)] else []))
    else s
  }

  /** Held for 8 s while armed: disarm, forget the press, play the reverse tune, redraw at once. */
  function CancelStep(c: Config, s: NeatState, now: nat): NeatState {
    if s.hold.pending && Elapsed(now, s.hold.pressStart) >= LONG_PRESS_MILLIS + HIBERNATE_CANCEL_MILLIS then
      Log(s.(hold := Hold(0, false, false), timers := s.timers.(nextRefresh := 0)),
          if c.buzzer then [Melody(CancelTune)] else [])
    else s
  }

  /** `handleHibernation`, with `isButtonPressed()` as `pressed`: its three `if` blocks in order. */
  function HibernationStep(c: Config, s: NeatState, now: nat, pressed: bool): NeatState {
    var s1 := if pressed && !s.hold.wasPressed then PressStart(s, now) else s;
    var s2 := if !pressed && s1.hold.wasPressed then ReleaseStep(s1) else s1;
    if pressed && s2.hold.wasPressed then CancelStep(c, ArmStep(c, s2, now), now) else s2
  }

  /** A power-off is only ever armed while the button is held. */
  predicate HoldInv(h: Hold) {
    h.pending ==> h.wasPressed
  }

  /** Pressing the button starts the hold clock and wakes the display; nothing is armed on that call. */
  lemma PressWakesDisplay(c: Config, s: NeatState, now: nat)
    requires HoldInv(s.hold) && !s.hold.wasPressed
    ensures var r := HibernationStep(c, s, now, true);
      r.hold == Hold(now, true, false) && r.displayOn && r.timers.autoOff == now + AUTO_OFF_MILLIS
      && r.events == s.events
  {
  }

  /**
   * Held for 5 to 8 s with nothing armed, a power-off is armed and auto-off is 18 s away, at any
   * uptime. Once armed it is not armed again while the button stays down, and before 5 s nothing
   * happens.
   */
  lemma LongHoldArms(c: Config, s: NeatState, now: nat)
    requires s.hold.wasPressed
    ensures var held := Elapsed(now, s.hold.pressStart);
      var r := HibernationStep(c, s, now, true);
      (!s.hold.pending && LONG_PRESS_MILLIS <= held < LONG_PRESS_MILLIS + HIBERNATE_CANCEL_MILLIS ==>
         r.hold == s.hold.(pending := true)
         && r.timers.autoOff == now + AUTO_OFF_MILLIS + HIBERNATE_CANCEL_MILLIS
         && r.events == s.events + [HibernationWarningShown] + (if c.buzzer then [Melody(HibernateTune)] else []))
      && (held < LONG_PRESS_MILLIS ==> r == s)
      && (s.hold.pending && held < LONG_PRESS_MILLIS + HIBERNATE_CANCEL_MILLIS ==> r == s)
  {
  }

  /**
   * When the first call that sees the hold comes 8 s or more after the press, the power-off is
   * armed and cancelled on the same call: the warning is shown and the cancel tune follows it.
   */
  lemma LateCallArmsAndCancels(c: Config, s: NeatState, now: nat)
    requires s.hold.wasPressed && !s.hold.pending
    requires Elapsed(now, s.hold.pressStart) >= LONG_PRESS_MILLIS + HIBERNATE_CANCEL_MILLIS
    ensures var r := HibernationStep(c, s, now, true);
      r.hold == Hold(0, false, false) && r.timers.nextRefresh == 0
      && r.events == s.events + [HibernationWarningShown] + (if c.buzzer then [Melody(HibernateTune)] else [])
                              + (if c.buzzer then [Melody(CancelTune)] else [])
  {
    var s1 := ArmStep(c, s, now);
    assert s1.hold.pending && s1.hold.pressStart == s.hold.pressStart;
  }

  /** Releasing powers off exactly when a power-off was armed; either way the press is forgotten. */
  lemma ReleasePowersOffIffPending(c: Config, s: NeatState, now: nat)
    requires s.hold.wasPressed
    ensures var r := HibernationStep(c, s, now, false);
      r.hold == Hold(0, false, false)
      && (s.hold.pending ==> r == ShutdownStep(s.(hold := Hold(0, false, false)), false) && !r.displayOn)
      && (!s.hold.pending ==> r == s.(hold := Hold(0, false, false)))
  {
  }

  /** Held on to 8 s while armed: disarmed, the press forgotten, and the next redraw due at once. */
  lemma HoldOnCancels(c: Config, s: NeatState, now: nat)
    requires s.hold.wasPressed && s.hold.pending
    requires Elapsed(now, s.hold.pressStart) >= LONG_PRESS_MILLIS + HIBERNATE_CANCEL_MILLIS
    ensures var r := HibernationStep(c, s, now, true);
      r.hold == Hold(0, false, false) && r.timers.nextRefresh == 0
      && r.events == s.events + (if c.buzzer then [Melody(CancelTune)] else [])
      && r.displayOn == s.displayOn
  {
  }

  /** After a cancel the button has to be pressed afresh: the next held call only restarts the clock. */
  lemma CancelNeedsFreshPress(c: Config, s: NeatState, now: nat, later: nat)
    requires s.hold.wasPressed && s.hold.pending
    requires Elapsed(now, s.hold.pressStart) >= LONG_PRESS_MILLIS + HIBERNATE_CANCEL_MILLIS
    ensures HibernationStep(c, HibernationStep(c, s, now, true), later, true).hold == Hold(later, true, false)
  {
    HoldOnCancels(c, s, now);
  }

  /** The hold invariant holds after `begin` and after every `handleHibernation`. */
  lemma HoldInvKept(c: Config, s: NeatState, now: nat, pressed: bool, firmwareVersion: string)
    ensures HoldInv(BeginStep(s, firmwareVersion, now).hold)
    ensures HoldInv(s.hold) ==> HoldInv(HibernationStep(c, s, now, pressed).hold)
  {
  }

  // ---------------------------------------------------------------------------------------
  // renderCurrScreen and loop

  /** The MQTT bridge's switch: due every 5 s, it flips between the node name and the WiFi address. */
  function SwitchStep(c: Config, s: NeatState, now: nat): NeatState {
    if c.mqttBridge && now >= s.ip.nextSwitch then s.(ip := IpSwitch(!s.ip.showIp, now + DISPLAY_SWITCH_MILLIS))
    else s
  }

  function NameLineOf(c: Config, ip: IpSwitch, wifiConnected: bool): NameLine {
    if c.mqttBridge && ip.showIp then (if wifiConnected then IpAddress else WifiDisconnected) else NodeName
  }

  /** The battery globals after a home-screen render read `milliVolts`. */
  function BatteryRead(s: NeatState, milliVolts: nat): NeatState {
    s.(battery := Battery(milliVolts, Labels.BatteryPercentage(milliVolts, Labels.MIN_MILLIVOLTS, Labels.MAX_MILLIVOLTS)))
  }

  /** `renderCurrScreen`: the boot screen for the first 4 s; then the switch, the name line and the gauge. */
  function RenderStep(c: Config, s: NeatState, t: Tick): Outcome {
    if t.now < BOOT_SCREEN_MILLIS then Outcome(s, Some(BootFrame(s.version)))
    else
      var s1 := BatteryRead(SwitchStep(c, s, t.now), t.battMilliVolts);
      var pct := s1.battery.percentage;
      Outcome(s1, Some(HomeFrame(NameLineOf(c, s1.ip, t.wifiConnected), pct, Labels.FillWidth(pct))))
  }

  /** The display block of `loop`: redraw when due and wait a second; switch off once past auto-off. */
  function DisplayStep(c: Config, s: NeatState, t: Tick): Outcome {
    if !s.displayOn then Outcome(s, None)
    else
      var st := if t.now >= s.timers.nextRefresh then
                  var rs := RenderStep(c, s, t);
                  Outcome(rs.state.(timers := rs.state.timers.(nextRefresh := t.now + REFRESH_MILLIS)), rs.frame)
                else Outcome(s, None);
      if t.now > st.state.timers.autoOff then Outcome(st.state.(displayOn := false), st.frame) else st
  }

  /** The `AUTO_SHUTDOWN_MILLIVOLTS` block: every 8 s, power off on a reading strictly between 0 and the threshold. */
  function BatteryStep(c: Config, s: NeatState, now: nat, milliVolts: nat): NeatState {
    match c.autoShutdownMillivolts
    case None => s
    case Some(threshold) =>
      if now > s.timers.nextBattCheck then
        var s1 := if 0 < milliVolts < threshold then ShutdownStep(s, false) else s;
        s1.(timers := s1.timers.(nextBattCheck := now + BATT_CHECK_MILLIS))
      else s
  }

  /** One `loop` call: hibernation first; while a power-off is armed, nothing else. */
  function LoopStep(c: Config, s: NeatState, t: Tick): Outcome {
    var s1 := HibernationStep(c, s, t.now, t.pressed);
    if s1.hold.pending then Outcome(s1, None)
    else
      var d := DisplayStep(c, s1, t);
      Outcome(BatteryStep(c, d.state, t.now, t.battMilliVolts), d.frame)
  }

  /** While a power-off is armed, a loop call draws nothing, leaves the display alone and checks no battery. */
  lemma PendingSkipsRest(c: Config, s: NeatState, t: Tick)
    requires HibernationStep(c, s, t.now, t.pressed).hold.pending
    ensures var s1 := HibernationStep(c, s, t.now, t.pressed);
      var st := LoopStep(c, s, t);
      st.frame.None? && st.state == s1
  {
  }

  /**
   * With nothing armed, a frame is drawn exactly when the display is on and the refresh is due,
   * the next one then a second later; the display goes off once past auto-off.
   */
  lemma RenderSchedule(c: Config, s: NeatState, t: Tick)
    requires !HibernationStep(c, s, t.now, t.pressed).hold.pending
    ensures var s1 := HibernationStep(c, s, t.now, t.pressed);
      var st := LoopStep(c, s, t);
      (st.frame.Some? <==> s1.displayOn && t.now >= s1.timers.nextRefresh)
      && (st.frame.Some? ==> st.state.timers.nextRefresh == t.now + REFRESH_MILLIS)
      && (st.frame.None? ==> st.state.timers.nextRefresh == s1.timers.nextRefresh)
      && (s1.displayOn && t.now > s1.timers.autoOff ==> !st.state.displayOn)
  {
    var s1 := HibernationStep(c, s, t.now, t.pressed);
    var d := DisplayStep(c, s1, t);
    BatteryKeeps(c, d.state, t.now, t.battMilliVolts);
  }

  /** The battery check moves nothing but the check deadline, the display and the events. */
  lemma BatteryKeeps(c: Config, s: NeatState, now: nat, milliVolts: nat)
    ensures var r := BatteryStep(c, s, now, milliVolts);
      r.timers.nextRefresh == s.timers.nextRefresh && r.hold == s.hold
      && (r.displayOn ==> s.displayOn)
  {
  }

  /**
   * The low-battery check runs only when `now > next_batt_chck`, then waits 8 s; it powers off
   * exactly on a reading strictly between 0 and the threshold.
   */
  lemma LowBatteryShutdown(c: Config, s: NeatState, now: nat, milliVolts: nat)
    requires c.autoShutdownMillivolts.Some?
    ensures var r := BatteryStep(c, s, now, milliVolts);
      var threshold := c.autoShutdownMillivolts.value;
      (now <= s.timers.nextBattCheck ==> r == s)
      && (now > s.timers.nextBattCheck ==>
            r.timers.nextBattCheck == now + BATT_CHECK_MILLIS
            && (0 < milliVolts < threshold ==> r.events == s.events + [RadioPoweredOff, BoardPoweredOff] && !r.displayOn)
            && (!(0 < milliVolts < threshold) ==> r.events == s.events && r.displayOn == s.displayOn))
  {
  }

  /** The home screen's gauge lies in [0, 100] percent and [0, 22] pixels. */
  lemma GaugeBounded(c: Config, s: NeatState, t: Tick)
    requires t.now >= BOOT_SCREEN_MILLIS
    ensures var st := RenderStep(c, s, t);
      st.frame.Some? && st.frame.value.HomeFrame?
      && 0 <= st.frame.value.batteryPct <= 100 && 0 <= st.frame.value.fillWidth <= Labels.FILL_MAX
      && st.state.battery == Battery(t.battMilliVolts, st.frame.value.batteryPct)
  {
  }

  /**
   * With the MQTT bridge the name line flips at most once per 5 s: a home-screen render before
   * the switch is due keeps the line chosen last, and one at or after it flips and waits 5 s more.
   */
  lemma NameLineAlternates(c: Config, s: NeatState, t: Tick)
    requires c.mqttBridge && t.now >= BOOT_SCREEN_MILLIS
    ensures var r := RenderStep(c, s, t).state;
      (t.now < s.ip.nextSwitch ==> r.ip == s.ip)
      && (t.now >= s.ip.nextSwitch ==> r.ip == IpSwitch(!s.ip.showIp, t.now + DISPLAY_SWITCH_MILLIS))
      && RenderStep(c, s, t).frame.value.nameLine
         == (if r.ip.showIp then (if t.wifiConnected then IpAddress else WifiDisconnected) else NodeName)
  {
  }

  /** Without the bridge the name line is always the node name and the switch never moves. */
  lemma NoBridgeShowsName(c: Config, s: NeatState, t: Tick)
    requires !c.mqttBridge && t.now >= BOOT_SCREEN_MILLIS
    ensures var st := RenderStep(c, s, t);
      st.state.ip == s.ip && st.frame.value.nameLine == NodeName
  {
  }

  // ---------------------------------------------------------------------------------------
  // The UITask object

  class NeatUI {
    const config: Config
    const display: DisplayDriver
    var nextRefresh: nat
    var autoOff: nat
    var nextBattCheck: nat
    /** `_prevBtnState`: true for HIGH. */
    var prevHigh: bool
    var pressStart: nat
    var buttonPressStart: nat
    var buttonWasPressed: bool
    var hibernationPending: bool
    /** `_version_info`. */
    var versionInfo: string
    /** The file's globals; there is one UITask. */
    var showIp: bool
    var nextDisplaySwitch: nat
    var batteryMv: nat
    var batteryPct: int
    /** What the UI has done outside its own fields. */
    ghost var events: seq<Event>

    ghost function State(): NeatState
      reads this, display
    {
      NeatState(display.on, Timers(nextRefresh, autoOff, nextBattCheck),
                Hold(buttonPressStart, buttonWasPressed, hibernationPending), Legacy(prevHigh, pressStart),
                IpSwitch(showIp, nextDisplaySwitch), Battery(batteryMv, batteryPct), versionInfo, events)
    }

    /** The object as a global: every field and global zero, and nothing done yet. */
    constructor (config: Config, display: DisplayDriver)
      ensures this.config == config && this.display == display
      ensures State() == NeatState(display.on, Timers(0, 0, 0), Hold(0, false, false), Legacy(false, 0),
                                   IpSwitch(false, 0), Battery(0, 0), "", [])
    {
      this.config, this.display := config, display;
      nextRefresh, autoOff, nextBattCheck := 0, 0, 0;
      prevHigh, pressStart := false, 0;
      buttonPressStart, buttonWasPressed, hibernationPending := 0, false, false;
      versionInfo := "";
      showIp, nextDisplaySwitch := false, 0;
      batteryMv, batteryPct := 0, 0;
      events := [];
    }

    method Begin(firmwareVersion: string, now: nat)
      modifies this`prevHigh, this`pressStart, this`autoOff, this`buttonPressStart, this`buttonWasPressed
      modifies this`hibernationPending, this`versionInfo, display
      ensures State() == BeginStep(old(State()), firmwareVersion, now)
    {
      ResetLegacy();
      SetAutoOff(now + AUTO_OFF_MILLIS);
      ResetHold();
      display.TurnOn();
      versionInfo := Labels.UpToDash(firmwareVersion);
    }

    method ResetLegacy()
      modifies this`prevHigh, this`pressStart
      ensures State() == old(State()).(legacy := Legacy(true, 0))
    {
      prevHigh, pressStart := true, 0;
    }

    method SetAutoOff(t: nat)
      modifies this`autoOff
      ensures State() == AutoOffAt(old(State()), t)
    {
      autoOff := t;
    }

    method ForgetPress()
      modifies this`buttonPressStart, this`buttonWasPressed
      ensures State() == old(State()).(hold := old(State()).hold.(pressStart := 0, wasPressed := false))
    {
      buttonWasPressed := false;
      buttonPressStart := 0;
    }

    method SetPending(pending: bool)
      modifies this`hibernationPending
      ensures State() == old(State()).(hold := old(State()).hold.(pending := pending))
    {
      hibernationPending := pending;
    }

    method ResetHold()
      modifies this`buttonPressStart, this`buttonWasPressed, this`hibernationPending
      ensures State() == ClearHold(old(State()))
    {
      ForgetPress();
      SetPending(false);
    }

    method Shutdown(restart: bool)
      modifies this`events, display
      ensures State() == ShutdownStep(old(State()), restart)
    {
      if restart {
        events := events + [Rebooted];
      } else {
        display.TurnOff();
        events := events + [RadioPoweredOff, BoardPoweredOff];
      }
    }

    method StartPress(now: nat)
      modifies this`buttonPressStart, this`buttonWasPressed, this`autoOff, display
      ensures State() == PressStart(old(State()), now)
    {
      buttonPressStart := now;
      buttonWasPressed := true;
      if !display.on {
        display.TurnOn();
      }
      autoOff := now + AUTO_OFF_MILLIS;
    }

    method Release()
      modifies this`buttonPressStart, this`buttonWasPressed, this`hibernationPending, this`events, display
      ensures State() == ReleaseStep(old(State()))
    {
      buttonWasPressed := false;
      buttonPressStart := 0;
      if hibernationPending {
        hibernationPending := false;
        Shutdown(false);
      }
    }

    method Arm(now: nat)
      modifies this`hibernationPending, this`autoOff, this`events
      ensures State() == ArmStep(config, old(State()), now)
    {
      if (now - buttonPressStart) % MILLIS_WRAP >= LONG_PRESS_MILLIS && !hibernationPending {
        hibernationPending := true;
        autoOff := now + AUTO_OFF_MILLIS + HIBERNATE_CANCEL_MILLIS;
        events := events + [HibernationWarningShown] + (if config.buzzer then [Melody(HibernateTune)] else []);
      }
    }

    method Cancel(now: nat)
      modifies this`hibernationPending, this`buttonWasPressed, this`buttonPressStart, this`nextRefresh, this`events
      ensures State() == CancelStep(config, old(State()), now)
    {
      if hibernationPending && Elapsed(now, buttonPressStart) >= LONG_PRESS_MILLIS + HIBERNATE_CANCEL_MILLIS {
        hibernationPending := false;
        buttonWasPressed := false;
        buttonPressStart := 0;
        if config.buzzer {
          events := events + [Melody(CancelTune)];
        }
        nextRefresh := 0;
      }
    }

    /** `handleHibernation`, with `isButtonPressed()` as `pressed`. */
    method HandleHibernation(now: nat, pressed: bool)
      modifies this`buttonPressStart, this`buttonWasPressed, this`hibernationPending, this`autoOff
      modifies this`nextRefresh, this`events, display
      ensures State() == HibernationStep(config, old(State()), now, pressed)
    {
      if pressed && !buttonWasPressed {
        StartPress(now);
      }
      if !pressed && buttonWasPressed {
        Release();
      }
      if pressed && buttonWasPressed {
        Arm(now);
        Cancel(now);
      }
    }

    /** The MQTT bridge's name-line switch. */
    method SwitchNameLine(now: nat)
      modifies this`showIp, this`nextDisplaySwitch
      ensures State() == SwitchStep(config, old(State()), now)
    {
      if config.mqttBridge && now >= nextDisplaySwitch {
        showIp := !showIp;
        nextDisplaySwitch := now + DISPLAY_SWITCH_MILLIS;
      }
    }

    /** The battery math of `renderCurrScreen`: the percentage computed and clamped as the C++ code does. */
    method ReadBattery(milliVolts: nat)
      modifies this`batteryMv, this`batteryPct
      ensures State() == BatteryRead(old(State()), milliVolts)
    {
      batteryMv := milliVolts;
      batteryPct := CDiv((batteryMv - Labels.MIN_MILLIVOLTS) * 100, Labels.MAX_MILLIVOLTS - Labels.MIN_MILLIVOLTS);
      if batteryPct < 0 {
        batteryPct := 0;
      }
      if batteryPct > 100 {
        batteryPct := 100;
      }
    }

    method RenderCurrScreen(tick: Tick) returns (frame: Frame)
      modifies this`showIp, this`nextDisplaySwitch, this`batteryMv, this`batteryPct
      ensures Outcome(State(), Some(frame)) == RenderStep(config, old(State()), tick)
    {
      if tick.now < BOOT_SCREEN_MILLIS {
        frame := BootFrame(versionInfo);
        return;
      }
      SwitchNameLine(tick.now);
      var line := NodeName;
      if config.mqttBridge && showIp {
        line := if tick.wifiConnected then IpAddress else WifiDisconnected;
      }
      ReadBattery(tick.battMilliVolts);
      var fillWidth := (batteryPct * (Labels.ICON_WIDTH - 2)) / 100;
      frame := HomeFrame(line, batteryPct, fillWidth);
    }

    method Refresh(tick: Tick) returns (frame: Option<Frame>)
      modifies this`nextRefresh, this`showIp, this`nextDisplaySwitch, this`batteryMv, this`batteryPct, display
      ensures Outcome(State(), frame) == DisplayStep(config, old(State()), tick)
    {
      frame := None;
      if display.on {
        if tick.now >= nextRefresh {
          var f := RenderCurrScreen(tick);
          frame := Some(f);
          nextRefresh := tick.now + REFRESH_MILLIS;
        }
        if tick.now > autoOff {
          display.TurnOff();
        }
      }
    }

    method CheckBattery(now: nat, milliVolts: nat)
      modifies this`nextBattCheck, this`events, display
      ensures State() == BatteryStep(config, old(State()), now, milliVolts)
    {
      if config.autoShutdownMillivolts.Some? && now > nextBattCheck {
        if milliVolts > 0 && milliVolts < config.autoShutdownMillivolts.value {
          Shutdown(false);
        }
        nextBattCheck := now + BATT_CHECK_MILLIS;
      }
    }

    method Loop(tick: Tick) returns (frame: Option<Frame>)
      modifies this, display
      ensures Outcome(State(), frame) == LoopStep(config, old(State()), tick)
    {
      HandleHibernation(tick.now, tick.pressed);
      if hibernationPending {
        return None;
      }
      frame := Refresh(tick);
      CheckBattery(tick.now, tick.battMilliVolts);
    }
  }
}
