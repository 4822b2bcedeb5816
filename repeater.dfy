/**
 * The simple repeater's UI (examples/simple_repeater/UITask.cpp and UITask.h): one user button
 * sampled five times a second, a long press that powers the board off when it is released, a
 * display redrawn once a second and switched off 15 s after the last press, and the battery gauge
 * of the home screen. The button level is a bool, true for HIGH (released); `millis()` is `now`.
 */
module SimpleRepeater {
  import opened Common
  import opened Display
  import Labels

  const AUTO_OFF_MILLIS: nat := 15000
  const BOOT_SCREEN_MILLIS: nat := 4000
  const LONG_PRESS_MILLIS: nat := 5000
  /** `_next_read` moves this far after every sample: five reads per second. */
  const READ_INTERVAL_MILLIS: nat := 200
  const REFRESH_MILLIS: nat := 1000

  /** What the UI does to the rest of the board. */
  datatype Event = RadioPoweredOff | BoardPoweredOff

  /** What one `renderCurrScreen` shows: the boot screen's version, or the home screen's battery gauge. */
  datatype Frame = BootFrame(version: string) | HomeFrame(batteryPct: int, fillWidth: int)

  datatype Timers = Timers(nextRead: nat, nextRefresh: nat, autoOff: nat)

  /** `_prevBtnState` (true for HIGH) and `_press_start`. */
  datatype Button = Button(prevHigh: bool, pressStart: nat)

  /** The globals `_battery_mv` and `batteryPercentage` that `renderCurrScreen` assigns. */
  datatype Battery = Battery(milliVolts: nat, percentage: int)

  datatype RepeaterState = RepeaterState(displayOn: bool, timers: Timers, button: Button, battery: Battery,
                                         version: string, events: seq<Event>)

  /** The inputs of one `loop` call: the clock, the button level, and the battery reading. */
  datatype Tick = Tick(now: nat, high: bool, battMilliVolts: nat)

  /** The state and the frame drawn, if any, after one `loop` call. */
  datatype Outcome = Outcome(state: RepeaterState, frame: Option<Frame>)

  /** `begin`: the button is taken as released, auto-off is 15 s away, the display is on. */
  function BeginStep(s: RepeaterState, firmwareVersion: string, now: nat): (r: RepeaterState)
    ensures r.displayOn && r.button == Button(true, 0) && r.timers.autoOff == now + AUTO_OFF_MILLIS
    ensures r.timers.nextRead == s.timers.nextRead && r.timers.nextRefresh == s.timers.nextRefresh
    ensures r.version <= firmwareVersion && '-' !in r.version && |r.version| < Labels.REPEATER_VERSION_SIZE
  {
    s.(displayOn := true, button := Button(true, 0), timers := s.timers.(autoOff := now + AUTO_OFF_MILLIS),
       version := Labels.RepeaterVersion(firmwareVersion))
  }

  /** A press (the level went LOW): the hold clock starts and the display wakes for 15 s. */
  function PressStep(s: RepeaterState, now: nat): RepeaterState {
    s.(displayOn := true, button := s.button.(pressStart := now), timers := s.timers.(autoOff := now + AUTO_OFF_MILLIS))
  }

  /** The release guard: a press was recorded and it lasted at least 5 s of wrapping `millis()`. */
  predicate LongHeld(b: Button, now: nat) {
    b.pressStart > 0 && Elapsed(now, b.pressStart) >= LONG_PRESS_MILLIS
  }

  /** Display off, then the radio and the board powered off. */
  function PowerOff(s: RepeaterState): RepeaterState {
    s.(displayOn := false, events := s.events + [RadioPoweredOff, BoardPoweredOff])
  }

  /** A release (the level went HIGH): power off after a long press; the hold clock is cleared. */
  function ReleaseStep(s: RepeaterState, now: nat): RepeaterState {
    var s1 := if LongHeld(s.button, now) then PowerOff(s) else s;
    s1.(button := s1.button.(pressStart := 0))
  }

  /** An edge is handled only when the level differs from the previous sample, which it then replaces. */
  function EdgeStep(s: RepeaterState, now: nat, high: bool): RepeaterState {
    if high == s.button.prevHigh then s
    else
      var s1 := if !high then PressStep(s, now) else ReleaseStep(s, now);
      s1.(button := s1.button.(prevHigh := high))
  }

  /** The `#ifdef PIN_USER_BTN` block of `loop`: sample when due, then wait 200 ms. */
  function SampleStep(s: RepeaterState, now: nat, high: bool): RepeaterState {
    if now >= s.timers.nextRead then
      var s1 := EdgeStep(s, now, high);
      s1.(timers := s1.timers.(nextRead := now + READ_INTERVAL_MILLIS))
    else s
  }

  /** What `renderCurrScreen` draws: the boot screen for the first 4 s, then the battery gauge. */
  function RenderFrame(s: RepeaterState, now: nat, milliVolts: nat): Frame {
    if now < BOOT_SCREEN_MILLIS then BootFrame(s.version)
    else
      var pct := Labels.BatteryPercentage(milliVolts, Labels.MIN_MILLIVOLTS, Labels.MAX_MILLIVOLTS);
      HomeFrame(pct, Labels.FillWidth(pct))
  }

  /** The battery globals after `renderCurrScreen`: only the home screen reads the battery. */
  function RenderedBattery(s: RepeaterState, now: nat, milliVolts: nat): Battery {
    if now < BOOT_SCREEN_MILLIS then s.battery
    else Battery(milliVolts, Labels.BatteryPercentage(milliVolts, Labels.MIN_MILLIVOLTS, Labels.MAX_MILLIVOLTS))
  }

  /** The display block of `loop`: redraw when due and wait a second; switch off once past auto-off. */
  function DisplayStep(s: RepeaterState, now: nat, milliVolts: nat): Outcome {
    if !s.displayOn then Outcome(s, None)
    else
      var st := if now >= s.timers.nextRefresh then
                  Outcome(s.(battery := RenderedBattery(s, now, milliVolts),
                          timers := s.timers.(nextRefresh := now + REFRESH_MILLIS)),
                       Some(RenderFrame(s, now, milliVolts)))
                else Outcome(s, None);
      if now > st.state.timers.autoOff then Outcome(st.state.(displayOn := false), st.frame) else st
  }

  /** One `loop` call; `hasButton` says whether `PIN_USER_BTN` is defined. */
  function LoopStep(hasButton: bool, s: RepeaterState, t: Tick): Outcome {
    DisplayStep(if hasButton then SampleStep(s, t.now, t.high) else s, t.now, t.battMilliVolts)
  }

  // ---------------------------------------------------------------------------------------
  // Properties of one loop call

  /** Before `_next_read` the button is not looked at: its state and the read deadline stay put. */
  lemma NotSampledBeforeDue(s: RepeaterState, t: Tick)
    requires t.now < s.timers.nextRead
    ensures var r := LoopStep(true, s, t).state;
      r.button == s.button && r.timers.nextRead == s.timers.nextRead && r.events == s.events
  {
  }

  /** When due the button is sampled and the next read is 200 ms later; no edge without a change of level. */
  lemma SampledWhenDue(s: RepeaterState, t: Tick)
    requires t.now >= s.timers.nextRead
    ensures var r := LoopStep(true, s, t).state;
      r.timers.nextRead == t.now + READ_INTERVAL_MILLIS && r.button.prevHigh == t.high
      && (t.high == s.button.prevHigh ==> r.button == s.button && r.events == s.events
                                          && r.timers.autoOff == s.timers.autoOff)
  {
  }

  /** A sampled press starts the hold clock, and the display is on with auto-off 15 s away. */
  lemma PressWakesDisplay(s: RepeaterState, t: Tick)
    requires t.now >= s.timers.nextRead && s.button.prevHigh && !t.high
    ensures var r := LoopStep(true, s, t).state;
      r.button == Button(false, t.now) && r.displayOn && r.timers.autoOff == t.now + AUTO_OFF_MILLIS
      && r.events == s.events
  {
  }

  /**
   * A sampled release powers the radio and the board off exactly when a press was recorded and
   * held for 5 s; the display is then off. Either way the hold clock is cleared.
   */
  lemma ReleasePowersOffIffLong(s: RepeaterState, t: Tick)
    requires t.now >= s.timers.nextRead && !s.button.prevHigh && t.high
    ensures var r := LoopStep(true, s, t).state;
      r.button == Button(true, 0)
      && (r.events == s.events + [RadioPoweredOff, BoardPoweredOff] <==> LongHeld(s.button, t.now))
      && (!LongHeld(s.button, t.now) ==> r.events == s.events)
      && (LongHeld(s.button, t.now) ==> !r.displayOn)
  {
    var r := LoopStep(true, s, t).state;
    if !LongHeld(s.button, t.now) {
      assert r.events == s.events;
      assert |r.events| < |s.events + [RadioPoweredOff, BoardPoweredOff]|;
    }
  }

  /** A frame is drawn exactly when the display is on after the button and the refresh is due. */
  lemma FrameWhenDue(hasButton: bool, s: RepeaterState, t: Tick)
    ensures var s1 := if hasButton then SampleStep(s, t.now, t.high) else s;
      var st := LoopStep(hasButton, s, t);
      (st.frame.Some? <==> s1.displayOn && t.now >= s1.timers.nextRefresh)
      && (st.frame.Some? ==> st.state.timers.nextRefresh == t.now + REFRESH_MILLIS)
      && (st.frame.None? ==> st.state.timers.nextRefresh == s1.timers.nextRefresh)
  {
  }

  /** The display is switched off by any loop call that finds it on past the auto-off deadline. */
  lemma AutoOff(hasButton: bool, s: RepeaterState, t: Tick)
    ensures var s1 := if hasButton then SampleStep(s, t.now, t.high) else s;
      var r := LoopStep(hasButton, s, t).state;
      (t.now > s1.timers.autoOff ==> !r.displayOn)
      && (t.now <= s1.timers.autoOff ==> r.displayOn == s1.displayOn)
  {
  }

  /** The gauge: the percentage lies in [0, 100] and the fill in [0, 22] pixels, and both follow the reading. */
  lemma GaugeBounded(s: RepeaterState, now: nat, milliVolts: nat)
    requires now >= BOOT_SCREEN_MILLIS
    ensures var f := RenderFrame(s, now, milliVolts);
      f.HomeFrame? && 0 <= f.batteryPct <= 100 && 0 <= f.fillWidth <= Labels.FILL_MAX
      && f.batteryPct == Labels.BatteryPercentage(milliVolts, Labels.MIN_MILLIVOLTS, Labels.MAX_MILLIVOLTS)
      && RenderedBattery(s, now, milliVolts) == Battery(milliVolts, f.batteryPct)
  {
  }

  /** Two loop calls less than a second apart draw at most one frame between them. */
  lemma RefreshAtMostOncePerSecond(hasButton: bool, s: RepeaterState, t1: Tick, t2: Tick)
    requires t1.now <= t2.now < t1.now + REFRESH_MILLIS
    requires LoopStep(hasButton, s, t1).frame.Some?
    ensures LoopStep(hasButton, LoopStep(hasButton, s, t1).state, t2).frame.None?
  {
    var s1 := LoopStep(hasButton, s, t1).state;
    FrameWhenDue(hasButton, s, t1);
    var s2 := if hasButton then SampleStep(s1, t2.now, t2.high) else s1;
    assert s2.timers.nextRefresh == s1.timers.nextRefresh;
    FrameWhenDue(hasButton, s1, t2);
  }

  /** Only a long press ever powers the board off: a loop call adds events only on a long release. */
  lemma PowerOffOnlyOnLongRelease(hasButton: bool, s: RepeaterState, t: Tick)
    ensures var r := LoopStep(hasButton, s, t).state;
      r.events == s.events
      || (hasButton && t.now >= s.timers.nextRead && !s.button.prevHigh && t.high && LongHeld(s.button, t.now)
          && r.events == s.events + [RadioPoweredOff, BoardPoweredOff])
  {
  }

  /** A recorded press means the last sample was LOW: the hold clock only runs while the button is down. */
  predicate ButtonInv(b: Button) {
    b.pressStart != 0 ==> !b.prevHigh
  }

  /** `begin` establishes the button invariant and every loop call keeps it. */
  lemma ButtonInvKept(hasButton: bool, s: RepeaterState, firmwareVersion: string, now: nat, t: Tick)
    requires ButtonInv(s.button)
    ensures ButtonInv(BeginStep(s, firmwareVersion, now).button)
    ensures ButtonInv(LoopStep(hasButton, s, t).state.button)
  {
  }

  // ---------------------------------------------------------------------------------------
  // The UITask object

  class RepeaterUI {
    const display: DisplayDriver
    var nextRead: nat
    var nextRefresh: nat
    var autoOff: nat
    /** `_prevBtnState`: true for HIGH. */
    var prevHigh: bool
    var pressStart: nat
    /** `_version_info`. */
    var versionInfo: string
    /** The file's globals `_battery_mv` and `batteryPercentage`; there is one UITask. */
    var batteryMv: nat
    var batteryPct: int
    /** What the UI has done to the rest of the board. */
    ghost var events: seq<Event>

    ghost function State(): RepeaterState
      reads this, display
    {
      RepeaterState(display.on, Timers(nextRead, nextRefresh, autoOff), Button(prevHigh, pressStart),
                    Battery(batteryMv, batteryPct), versionInfo, events)
    }

    /** `UITask(DisplayDriver&)`: the display is kept and both read and refresh deadlines are 0. */
    constructor (display: DisplayDriver)
      ensures this.display == display && nextRead == 0 && nextRefresh == 0
      ensures batteryMv == 0 && batteryPct == 0 && events == []
      ensures unchanged(display)
    {
      this.display := display;
      nextRead, nextRefresh := 0, 0;
      autoOff, prevHigh, pressStart := 0, false, 0;
      versionInfo := "";
      batteryMv, batteryPct := 0, 0;
      events := [];
    }

    method Begin(firmwareVersion: string, now: nat)
      modifies this, display
      ensures State() == BeginStep(old(State()), firmwareVersion, now)
    {
      prevHigh := true;
      autoOff := now + AUTO_OFF_MILLIS;
      pressStart := 0;
      display.TurnOn();
      versionInfo := Labels.RepeaterVersion(firmwareVersion);
    }

    method Press(now: nat)
      modifies this`pressStart, this`autoOff, display
      ensures State() == PressStep(old(State()), now)
    {
      pressStart := now;
      if !display.on {
        display.TurnOn();
      }
      autoOff := now + AUTO_OFF_MILLIS;
    }

    method Release(now: nat)
      modifies this`pressStart, this`events, display
      ensures State() == ReleaseStep(old(State()), now)
    {
      if pressStart > 0 && (now - pressStart) % MILLIS_WRAP >= LONG_PRESS_MILLIS {
        display.TurnOff();
        events := events + [RadioPoweredOff, BoardPoweredOff];
      }
      pressStart := 0;
    }

    method SampleButton(now: nat, high: bool)
      modifies this`prevHigh, this`pressStart, this`autoOff, this`nextRead, this`events, display
      ensures State() == SampleStep(old(State()), now, high)
    {
      if now >= nextRead {
        if high != prevHigh {
          if !high {
            Press(now);
          } else {
            Release(now);
          }
          prevHigh := high;
        }
        nextRead := now + READ_INTERVAL_MILLIS;
      }
    }

    /** `renderCurrScreen`, with the percentage computed and clamped as the C++ code does. */
    method RenderCurrScreen(now: nat, milliVolts: nat) returns (frame: Frame)
      modifies this`batteryMv, this`batteryPct
      ensures frame == RenderFrame(old(State()), now, milliVolts)
      ensures Battery(batteryMv, batteryPct) == RenderedBattery(old(State()), now, milliVolts)
    {
      if now < BOOT_SCREEN_MILLIS {
        frame := BootFrame(versionInfo);
      } else {
        batteryMv := milliVolts;
        batteryPct := CDiv((batteryMv - Labels.MIN_MILLIVOLTS) * 100, Labels.MAX_MILLIVOLTS - Labels.MIN_MILLIVOLTS);
        if batteryPct < 0 {
          batteryPct := 0;
        }
        if batteryPct > 100 {
          batteryPct := 100;
        }
        var fillWidth := (batteryPct * (Labels.ICON_WIDTH - 2)) / 100;
        frame := HomeFrame(batteryPct, fillWidth);
      }
    }

    method Refresh(now: nat, milliVolts: nat) returns (frame: Option<Frame>)
      modifies this`nextRefresh, this`batteryMv, this`batteryPct, display
      ensures Outcome(State(), frame) == DisplayStep(old(State()), now, milliVolts)
    {
      frame := None;
      if display.on {
        if now >= nextRefresh {
          var f := RenderCurrScreen(now, milliVolts);
          frame := Some(f);
          nextRefresh := now + REFRESH_MILLIS;
        }
        if now > autoOff {
          display.TurnOff();
        }
      }
    }

    /** `loop`; `hasButton` says whether `PIN_USER_BTN` is defined. */
    method Loop(hasButton: bool, tick: Tick) returns (frame: Option<Frame>)
      modifies this, display
      ensures Outcome(State(), frame) == LoopStep(hasButton, old(State()), tick)
    {
      if hasButton {
        SampleButton(tick.now, tick.high);
      }
      frame := Refresh(tick.now, tick.battMilliVolts);
    }
  }
}
