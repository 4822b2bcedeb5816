/**
 * The companion radio's `UITask` object (examples/companion_radio/ui-new/UITask.cpp and
 * UITask.h): the fields the C++ class updates in place, the pointers it holds to the display,
 * the sensor manager, the preferences and its three screens, and one method per member
 * function. Every method is proved to move the UITask's state exactly as the function of the same
 * name in CompanionSpec says, so what is proved there about those functions holds of the object.
 */
module CompanionTask {
  import opened Common
  import opened Display
  import opened CompanionScreens
  import opened MsgPreview
  import opened CompanionSpec

  class UITask {
    const config: Config

    // Hardware components and screens, all NULL until `begin`.
    var display: DisplayDriver?
    var sensors: SensorManager?
    var prefs: NodePrefs?
    var splash: SplashScreen?
    var home: HomeScreen?
    var preview: MsgPreviewScreen?
    var curr: ScreenId

    // Deadlines in milliseconds, the alert, the message count and the mode flags.
    var nextRefresh: nat
    var autoOff: nat
    var alertExpiry: nat
    var uiStartedAt: nat
    var nextBattCheck: nat
    var buttonPressStart: nat
    var alert: string
    var msgCount: int
    var screensaverOn: bool
    var hibernationPending: bool
    var buttonWasPressed: bool
    var forceBacklight: bool
    /** The buzzer's quiet mode, kept by the buzzer object. */
    var buzzerQuiet: bool
    var ledState: int
    var nextLedChange: int
    var lastLedIncrement: int
    /** What the UITask has done to the world outside the UI. */
    ghost var events: seq<Event>

    /** The objects the UITask's state lives in. */
    ghost function Repr(): set<object>
      reads this`display, this`sensors, this`prefs, this`home, this`preview, preview
    {
      {this} + (if display != null then {display} else {}) + (if sensors != null then {sensors} else {})
      + (if prefs != null then {prefs} else {}) + (if home != null then {home} else {})
      + (if preview != null then {preview, preview.unread} else {})
    }

    /** `begin` has run: the preferences are known and the screens exist. */
    predicate Begun()
      reads this`prefs, this`splash, this`home, this`preview
    {
      prefs != null && splash != null && home != null && preview != null
    }

    /** The display and the sensor settings, as far as the UITask sees them. */
    ghost function BoardView(): Board
      reads this`display, this`sensors, display, sensors
    {
      Board(display != null, display != null && display.on, sensors != null,
            if sensors != null then sensors.settings else [])
    }

    ghost function ScreensView(): Screens
      requires Begun()
      reads this`curr, this`splash, this`home, this`preview, this`prefs, home, preview, preview.unread
    {
      Screens(curr, splash.dismissAfter, home.View(), preview.View())
    }

    ghost function TimersView(): Timers
      reads this`nextRefresh, this`autoOff, this`uiStartedAt, this`nextBattCheck
    {
      Timers(nextRefresh, autoOff, uiStartedAt, nextBattCheck)
    }

    ghost function ModesView(): Modes
      reads this`screensaverOn, this`forceBacklight, this`buzzerQuiet
    {
      Modes(screensaverOn, forceBacklight, buzzerQuiet)
    }

    ghost function HoldView(): Hold
      reads this`buttonPressStart, this`buttonWasPressed, this`hibernationPending
    {
      Hold(buttonPressStart, buttonWasPressed, hibernationPending)
    }

    /** The UITask's state as a value. */
    ghost function State(): TaskState
      requires Begun()
      reads this, Repr()
    {
      TaskState(BoardView(), prefs.View(), ScreensView(), TimersView(), CompanionSpec.Alert(alert, alertExpiry),
                msgCount, ModesView(), HoldView(), Led(ledState, nextLedChange, lastLedIncrement), events)
    }

    /** The home screen shares the UITask's preferences and layout, and both screens keep their shape. */
    ghost predicate Wired()
      reads this`prefs, this`splash, this`home, this`preview, home
      reads if preview != null then {preview, preview.unread} else {}
    {
      Begun() && home.prefs == prefs && home.layout == config.Layout()
      && HomeInv(config.Layout(), home.View()) && PreviewInv(preview.View())
    }

    /** Wired, and the state keeps its invariant: a current screen, and a preview only of something unread. */
    ghost predicate Valid()
      reads this`prefs, this`splash, this`home, this`preview, this`curr, home
      reads if preview != null then {preview, preview.unread} else {}
    {
      Wired() && ScreensInv(config, ScreensView())
    }

    /** The C++ constructor: every pointer NULL, no current screen, every timer and flag cleared. */
    constructor (config: Config)
      ensures this.config == config && !Begun()
      ensures display == null && sensors == null && prefs == null && splash == null && home == null && preview == null
      ensures curr == NoScreen
      ensures nextRefresh == 0 && autoOff == 0 && alertExpiry == 0 && uiStartedAt == 0 && nextBattCheck == 0
      ensures buttonPressStart == 0 && msgCount == 0
      ensures !screensaverOn && !hibernationPending && !buttonWasPressed
      ensures ledState == 0 && nextLedChange == 0 && lastLedIncrement == 0
    {
      this.config := config;
      display, sensors, prefs := null, null, null;
      splash, home, preview := null, null, null;
      curr := NoScreen;
      nextRefresh, autoOff, alertExpiry, uiStartedAt, nextBattCheck := 0, 0, 0, 0, 0;
      buttonPressStart, msgCount := 0, 0;
      alert := "";
      screensaverOn, hibernationPending, buttonWasPressed := false, false, false;
      forceBacklight, buzzerQuiet := false, false;
      ledState, nextLedChange, lastLedIncrement := 0, 0, 0;
      events := [];
    }

    /**
     * The constructor followed by `begin`: the display switched on, the GPS preference applied to the
     * sensors, the timers started and the splash screen current.
     */
    constructor Begin(config: Config, display: DisplayDriver?, sensors: SensorManager?, prefs: NodePrefs,
                      firmwareVersion: string, now: nat)
      modifies display, sensors
      ensures Valid() && this.config == config
      ensures this.display == display && this.sensors == sensors && this.prefs == prefs
      ensures State() == CompanionSpec.Begin(config, display != null, if sensors == null then None else Some(old(sensors.settings)),
                                             old(prefs.View()), now)
    {
      ghost var st := if sensors == null then None else Some(sensors.settings);
      ghost var p := prefs.View();
      this.config := config;
      this.display, this.sensors, this.prefs := display, sensors, prefs;
      var ev: seq<Event> := [];
      if config.gps && sensors != null {
        ApplyGpsPrefs(sensors, prefs);
        ev := [GpsPower(prefs.gpsEnabled)];
      }
      events := ev;
      if display != null {
        display.TurnOn();
      }
      autoOff := now + AUTO_OFF_MILLIS;
      buzzerQuiet := config.buzzer && prefs.buzzerQuiet;
      uiStartedAt := now;
      alert, alertExpiry := "", 0;
      screensaverOn := prefs.screensaverEnabled;
      var sp, hs, pv := NewScreens(config.Layout(), prefs, firmwareVersion, now);
      splash, home, preview := sp, hs, pv;
      curr, nextRefresh := Splash, SOON;
      nextBattCheck, buttonPressStart, msgCount := 0, 0, 0;
      hibernationPending, buttonWasPressed, forceBacklight := false, false, false;
      ledState, nextLedChange, lastLedIncrement := 0, 0, 0;
      new;
      BeginInv(config, display != null, st, p, now);
    }

    /** `setCurrScreen`. */
    method SetCurrScreen(id: ScreenId)
      requires Begun()
      modifies this`curr, this`nextRefresh
      ensures State() == SetCurr(old(State()), id)
    {
      curr := id;
      nextRefresh := SOON;
    }

    /** `gotoHomeScreen`. */
    method GotoHomeScreen()
      requires Wired()
      modifies this`curr, this`nextRefresh
      ensures Wired() && State() == CompanionSpec.GotoHomeScreen(old(State()))
    {
      SetCurrScreen(Home);
    }

    /** `showAlert`. */
    method ShowAlert(text: string, millis: nat, now: nat)
      requires Begun()
      modifies this`alert, this`alertExpiry
      ensures State() == CompanionSpec.ShowAlert(old(State()), text, millis, now)
    {
      alert := text;
      alertExpiry := now + millis;
    }

    /** `notify`: the tune played is recorded; the vibration motor is not modelled. */
    method Notify(t: UIEventType)
      requires Begun()
      modifies this`events
      ensures State() == CompanionSpec.Notify(config, old(State()), t)
    {
      if config.buzzer {
        match t
        case ContactMessage => events := events + [Melody(MsgTune)];
        case ChannelMessage => events := events + [Melody(ChannelTune)];
        case Ack => events := events + [Melody(AckTune)];
        case _ =>
      }
    }

    /** `msgRead`. */
    method MsgRead(count: int)
      requires Valid()
      modifies this`msgCount, this`curr, this`nextRefresh
      ensures Valid() && State() == CompanionSpec.MsgRead(old(State()), count)
    {
      msgCount := count;
      if count == 0 {
        GotoHomeScreen();
      }
    }

    /** `newMsg`, with `hasConnection()` as a parameter. */
    method NewMsg(pathLen: byte, fromName: seq<byte>, text: seq<byte>, count: int, now: nat, nowSecs: nat,
                  hasConnection: bool)
      requires Valid()
      modifies this`msgCount, this`curr, this`nextRefresh, this`autoOff, display, preview, preview.unread
      ensures Valid()
      ensures State() == CompanionSpec.NewMsg(config, old(State()), pathLen, fromName, text, count, now, nowSecs, hasConnection)
    {
      BufferMsg(pathLen, fromName, text, count, nowSecs);
      WakeForMsg(now, hasConnection);
    }

    /** The first half of `newMsg`: the count, the preview buffer and the current screen. */
    method BufferMsg(pathLen: byte, fromName: seq<byte>, text: seq<byte>, count: int, nowSecs: nat)
      requires Valid()
      modifies this`msgCount, this`curr, this`nextRefresh, preview, preview.unread
      ensures Valid()
      ensures State() == NewMsgBuffer(config, old(State()), PreviewEntry(nowSecs, pathLen, fromName, text), count)
    {
      var onScreensaver := curr == Home && home.IsScreensaverActive();
      StoreMsg(pathLen, fromName, text, count, nowSecs);
      if !onScreensaver {
        SetCurrScreen(Preview);
      }
    }

    /** `_msgcount` and `addPreview`. */
    method StoreMsg(pathLen: byte, fromName: seq<byte>, text: seq<byte>, count: int, nowSecs: nat)
      requires Valid()
      modifies this`msgCount, preview, preview.unread
      ensures State() == CompanionSpec.StoreMsg(old(State()), PreviewEntry(nowSecs, pathLen, fromName, text), count)
    {
      msgCount := count;
      preview.AddPreview(pathLen, fromName, text, nowSecs);
    }

    /** The second half of `newMsg`: the display woken or kept on. */
    method WakeForMsg(now: nat, hasConnection: bool)
      requires Valid()
      modifies this`autoOff, this`nextRefresh, display
      ensures State() == NewMsgDisplay(config, old(State()), now, hasConnection)
    {
      if display != null {
        if !display.on && !hasConnection {
          LightDisplay();
        }
        var onScreensaver := curr == Home && home.IsScreensaverActive();
        if display.on && !onScreensaver {
          SetAutoOff(now + AUTO_OFF_MILLIS);
          SetRefresh(SOON);
        }
      }
    }

    /** `userLedHandler`, reading `millis()` into a 32-bit `int` as the source does. */
    method UserLedHandler(now: nat)
      requires Begun()
      modifies this`ledState, this`nextLedChange, this`lastLedIncrement
      ensures State() == UserLed(config, old(State()), now)
    {
      if config.statusLed {
        var cur := ToInt32(now % MILLIS_WRAP);
        if cur > nextLedChange {
          if ledState == 0 {
            var inc := if msgCount > 0 then LED_ON_MSG_MILLIS else LED_ON_MILLIS;
            SetLed(1, WrapInt32(cur + inc), inc);
          } else {
            SetLed(0, WrapInt32(cur + LED_CYCLE_MILLIS - lastLedIncrement), lastLedIncrement);
          }
        }
      }
    }

    /** Sets `led_state`, `next_led_change` and `last_led_increment`. */
    method SetLed(state: int, nextChange: int, increment: int)
      requires Begun()
      modifies this`ledState, this`nextLedChange, this`lastLedIncrement
      ensures State() == old(State()).(led := Led(state, nextChange, increment))
    {
      SetLedState(state);
      SetLedTimes(nextChange, increment);
    }

    method SetLedState(state: int)
      requires Begun()
      modifies this`ledState
      ensures State() == old(State()).(led := old(State()).led.(state := state))
    {
      ledState := state;
    }

    method SetLedTimes(nextChange: int, increment: int)
      requires Begun()
      modifies this`nextLedChange, this`lastLedIncrement
      ensures State() == old(State()).(led := old(State()).led.(nextChange := nextChange, lastIncrement := increment))
    {
      nextLedChange := nextChange;
      lastLedIncrement := increment;
    }

    /** `getGPSState`. */
    method GetGpsState() returns (on: bool)
      ensures on == GpsState(BoardView())
    {
      on := false;
      if sensors != null {
        var found := GpsIndex(sensors);
        if found.Some? {
          on := sensors.settings[found.value].value == "1";
        }
      }
    }

    /** `setGPSHardwareState`: the GPS power pins, recorded as an event. */
    method SetGpsHardwareState(enabled: bool)
      requires Begun()
      modifies this`events
      ensures State() == Log(old(State()), [GpsPower(enabled)])
    {
      LogEvents([GpsPower(enabled)]);
    }

    /** `shutdown`; the buzzer's closing melody is not modelled. */
    method Shutdown(restart: bool)
      requires Begun()
      modifies this`events, display
      ensures State() == CompanionSpec.Shutdown(old(State()), restart)
    {
      if restart {
        LogEvents([Rebooted]);
      } else {
        var gps := GetGpsState();
        if gps {
          SetGpsHardwareState(false);
        }
        DarkenDisplay();
        LogEvents([RadioPoweredOff, BoardPoweredOff]);
      }
    }

    /** `_display->turnOn()`. */
    method LightDisplay()
      requires Begun() && display != null
      modifies display
      ensures State() == DisplayLit(old(State()))
    {
      display.TurnOn();
    }

    /** `_display->turnOff()`, on a display that is there. */
    method DarkenDisplay()
      requires Begun()
      modifies display
      ensures State() == DisplayDark(old(State()))
    {
      if display != null {
        display.TurnOff();
      }
    }

    /** Sets `_auto_off`. */
    method SetAutoOff(t: nat)
      requires Begun()
      modifies this`autoOff
      ensures State() == AutoOffAt(old(State()), t)
    {
      autoOff := t;
    }

    /** `toggleScreensaver`; `savePrefs` is recorded as an event. */
    method ToggleScreensaver(now: nat)
      requires Begun()
      modifies this`screensaverOn, prefs, this`events, this`alert, this`alertExpiry, this`nextRefresh
      ensures State() == CompanionSpec.ToggleScreensaver(old(State()), now)
    {
      FlipScreensaver();
      LogEvents([PrefsSaved]);
      ShowAlert(if screensaverOn then "Screensaver: ON" else "Screensaver: OFF", 1000, now);
      SetRefresh(0);
    }

    method FlipScreensaver()
      requires Begun()
      modifies this`screensaverOn, prefs
      ensures State() == CompanionSpec.FlipScreensaver(old(State()))
    {
      screensaverOn := !screensaverOn;
      prefs.screensaverEnabled := screensaverOn;
    }

    /** Appends to the record of what the UITask has done. */
    method LogEvents(evs: seq<Event>)
      requires Begun()
      modifies this`events
      ensures State() == Log(old(State()), evs)
    {
      events := events + evs;
    }

    /** Sets `_next_refresh`. */
    method SetRefresh(t: nat)
      requires Begun()
      modifies this`nextRefresh
      ensures State() == RefreshAt(old(State()), t)
    {
      nextRefresh := t;
    }

    /** `toggleBacklight`. */
    method ToggleBacklight(now: nat)
      requires Begun()
      modifies this`forceBacklight, this`alert, this`alertExpiry, this`autoOff, this`nextRefresh
      ensures State() == CompanionSpec.ToggleBacklight(old(State()), now)
    {
      FlipBacklight();
      ShowAlert(if forceBacklight then "Backlight: ALWAYS" else "Backlight: BUTTON ", 1000, now);
      SetAutoOff(now + AUTO_OFF_MILLIS);
      SetRefresh(0);
    }

    method FlipBacklight()
      requires Begun()
      modifies this`forceBacklight
      ensures State() == CompanionSpec.FlipBacklight(old(State()))
    {
      forceBacklight := !forceBacklight;
    }

    /** `toggleBuzzer`. */
    method ToggleBuzzer(now: nat)
      requires Begun()
      modifies this`buzzerQuiet, prefs, this`events, this`alert, this`alertExpiry, this`nextRefresh
      ensures State() == CompanionSpec.ToggleBuzzer(config, old(State()), now)
    {
      if !config.buzzer {
        ShowAlert("Buzzer N/A", 1000, now);
        return;
      }
      if buzzerQuiet {
        Quiet(false);
        Notify(Ack);
      } else {
        Quiet(true);
      }
      StoreQuiet();
      LogEvents([PrefsSaved]);
      ShowAlert(if buzzerQuiet then "Buzzer: OFF" else "Buzzer: ON", 800, now);
      SetRefresh(0);
    }

    /** `buzzer.quiet(q)`. */
    method Quiet(q: bool)
      requires Begun()
      modifies this`buzzerQuiet
      ensures State() == SetQuiet(old(State()), q)
    {
      buzzerQuiet := q;
    }

    /** `_node_prefs->buzzer_quiet = buzzer.isQuiet()`. */
    method StoreQuiet()
      requires Begun()
      modifies prefs
      ensures State() == CompanionSpec.StoreQuiet(old(State()))
    {
      prefs.buzzerQuiet := buzzerQuiet;
    }

    /** `toggleGPS`: the search for the "gps" setting, then the toggle at the first match. */
    method ToggleGps(now: nat)
      requires Begun()
      modifies sensors, prefs, this`events, this`alert, this`alertExpiry, this`nextRefresh
      ensures State() == CompanionSpec.ToggleGps(config, old(State()), now)
    {
      if sensors != null {
        var found := GpsIndex(sensors);
        if found.Some? {
          ToggleGpsAt(found.value, now);
        }
      }
    }

    /** The body of `toggleGPS`'s loop once it has found the "gps" setting at `i`. */
    method ToggleGpsAt(i: nat, now: nat)
      requires Begun() && sensors != null && FindSetting(sensors.settings, "gps") == Some(i)
      modifies sensors, prefs, this`events, this`alert, this`alertExpiry, this`nextRefresh
      ensures State() == CompanionSpec.ToggleGps(config, old(State()), now)
    {
      StoreGps(i);
      SetGpsHardwareState(prefs.gpsEnabled);
      Notify(Ack);
      LogEvents([PrefsSaved]);
      ShowAlert(if prefs.gpsEnabled then "GPS: Enabled" else "GPS: Disabled", 800, now);
      SetRefresh(0);
    }

    /** The flipped "gps" value written to the sensors and to `gps_enabled`. */
    method StoreGps(i: nat)
      requires Begun() && sensors != null && FindSetting(sensors.settings, "gps") == Some(i)
      modifies sensors, prefs
      ensures State() == CompanionSpec.StoreGps(old(State()), i)
    {
      var newState := !(sensors.settings[i].value == "1");
      sensors.SetSettingValue("gps", if newState then "1" else "0");
      prefs.gpsEnabled := newState;
    }

    /** `checkDisplayOn`. */
    method CheckDisplayOn(k: Key, now: nat) returns (key: Key)
      requires Valid()
      modifies home, display, this`autoOff, this`nextRefresh
      ensures Valid()
      ensures KeyResult(State(), key) == CompanionSpec.CheckDisplayOn(config, old(State()), k, now)
    {
      key := k;
      if display != null {
        var consumed := Wake();
        if consumed {
          key := NoKey;
        }
        SetAutoOff(now + AUTO_OFF_MILLIS);
        SetRefresh(0);
      }
    }

    /** The first half of `checkDisplayOn`: whether the press only took down the screensaver or lit the display. */
    method Wake() returns (consumed: bool)
      requires Valid() && display != null
      modifies home, display
      ensures Valid()
      ensures consumed == (!old(display.on) || OnScreensaver(config, old(State()).ui))
      ensures State() == Woken(config, old(State()))
    {
      consumed := false;
      if display.on && curr == Home && home.IsScreensaverActive() {
        LeaveScreensaver();
        consumed := true;
      }
      if !display.on {
        LightDisplay();
        consumed := true;
      }
    }

    /** `deactivateScreensaver` on the current home screen of a lit display. */
    method LeaveScreensaver()
      requires Valid() && display != null && display.on && curr == Home && home.IsScreensaverActive()
      modifies home
      ensures Valid()
      ensures State() == old(State()).(ui := WakeScreens(config, old(State()).ui, true))
    {
      home.DeactivateScreensaver();
    }

    /** `handleLongPress`: `enterCLIRescue` is recorded as an event. */
    method HandleLongPress(k: Key, now: nat) returns (key: Key)
      requires Begun()
      modifies this`events
      ensures KeyResult(State(), key) == CompanionSpec.HandleLongPress(old(State()), k, now)
    {
      key := k;
      if Elapsed(now, uiStartedAt) < RESCUE_WINDOW_MILLIS {
        events := events + [RescueEntered];
        key := NoKey;
      }
    }

    /** `handleDoubleClick`. */
    method HandleDoubleClick(k: Key, now: nat) returns (key: Key)
      requires Valid()
      modifies home, display, this`autoOff, this`nextRefresh
      ensures Valid()
      ensures KeyResult(State(), key) == CompanionSpec.HandleDoubleClick(config, old(State()), k, now)
    {
      var _ := CheckDisplayOn(k, now);
      key := k;
    }

    /** `handleTripleClick`. */
    method HandleTripleClick(k: Key, now: nat) returns (key: Key)
      requires Valid()
      modifies home, display, prefs, this`autoOff, this`nextRefresh, this`buzzerQuiet, this`events,
               this`alert, this`alertExpiry
      ensures Valid()
      ensures KeyResult(State(), key) == CompanionSpec.HandleTripleClick(config, old(State()), k, now)
    {
      var _ := CheckDisplayOn(k, now);
      ToggleBuzzer(now);
      key := NoKey;
    }

    /** `handleQuadrupleClick`. */
    method HandleQuadrupleClick(k: Key, now: nat) returns (key: Key)
      requires Valid()
      modifies home, display, this`autoOff, this`nextRefresh, this`forceBacklight, this`alert, this`alertExpiry
      ensures Valid()
      ensures KeyResult(State(), key) == CompanionSpec.HandleQuadrupleClick(config, old(State()), k, now)
    {
      var _ := CheckDisplayOn(k, now);
      ToggleBacklight(now);
      key := NoKey;
    }

    /** The user-button part of `loop`: the event `user_btn.check()` reported, mapped to a key. */
    method ButtonKey(ev: ButtonEvent, now: nat) returns (key: Key)
      requires Valid()
      modifies home, display, prefs, this`autoOff, this`nextRefresh, this`buzzerQuiet, this`events,
               this`alert, this`alertExpiry, this`forceBacklight
      ensures Valid()
      ensures KeyResult(State(), key) == CompanionSpec.ButtonKey(config, old(State()), ev, now)
    {
      match ev
      case NoButtonEvent => key := NoKey;
      case Click => key := CheckDisplayOn(KeyNext, now);
      case LongPress => key := HandleLongPress(KeyEnter, now);
      case DoubleClick => key := HandleDoubleClick(KeyPrev, now);
      case TripleClick => key := HandleTripleClick(KeySelect, now);
      case QuadrupleClick => key := HandleQuadrupleClick(KeySelect, now);
    }

    /** `handleHibernation`, with `isButtonPressed()` as `pressed`. */
    method HandleHibernation(now: nat, pressed: bool)
      requires Valid()
      modifies this`buttonPressStart, this`buttonWasPressed, this`hibernationPending, this`autoOff,
               this`events, this`alert, this`alertExpiry, this`nextRefresh, display
      ensures State() == Hibernation(config, old(State()), now, pressed)
    {
      if curr != Home || home.page != FIRST {
        return;
      }
      PressOrRelease(now, pressed);
      if pressed && buttonWasPressed {
        ArmHibernation(now);
        CancelHibernation(now);
      }
    }

    /** The press and release phases of `handleHibernation`. */
    method PressOrRelease(now: nat, pressed: bool)
      requires Begun()
      modifies this`buttonPressStart, this`buttonWasPressed, this`hibernationPending, this`events, display
      ensures State() == PressRelease(old(State()), now, pressed)
    {
      if pressed && !buttonWasPressed {
        StartPress(now);
      }
      if !pressed && buttonWasPressed {
        var pending := hibernationPending;
        ResetHold();
        if pending {
          Shutdown(false);
        }
      }
    }

    /** The start of a press: its time noted. */
    method StartPress(now: nat)
      requires Begun()
      modifies this`buttonPressStart, this`buttonWasPressed
      ensures State() == old(State()).(hold := old(State()).hold.(pressStart := now, wasPressed := true))
    {
      buttonPressStart := now;
      buttonWasPressed := true;
    }

    /** `_button_was_pressed`, `_button_press_start` and `_hibernation_pending` cleared. */
    method ResetHold()
      requires Begun()
      modifies this`buttonPressStart, this`buttonWasPressed, this`hibernationPending
      ensures State() == ClearHold(old(State()))
    {
      ReleaseButton();
      ClearPending();
    }

    method ReleaseButton()
      requires Begun()
      modifies this`buttonPressStart, this`buttonWasPressed
      ensures State() == old(State()).(hold := old(State()).hold.(pressStart := 0, wasPressed := false))
    {
      buttonWasPressed := false;
      buttonPressStart := 0;
    }

    method ClearPending()
      requires Begun()
      modifies this`hibernationPending
      ensures State() == old(State()).(hold := old(State()).hold.(pending := false))
    {
      hibernationPending := false;
    }

    /** The 5-second warning of `handleHibernation`: the drawn warning and the melody are recorded. */
    method ArmHibernation(now: nat)
      requires Begun()
      modifies this`hibernationPending, this`autoOff, this`events
      ensures State() == HoldArm(config, old(State()), now)
    {
      var held := Elapsed(now, buttonPressStart);
      if held >= LONG_PRESS_MILLIS && !hibernationPending && Elapsed(now, uiStartedAt) > HIBERNATE_MIN_UPTIME_MILLIS {
        SetPending();
        SetAutoOff(now + AUTO_OFF_MILLIS + HIBERNATE_CANCEL_MILLIS);
        LogEvents((if display != null then [HibernationWarningShown] else [])
                  + (if config.buzzer then [Melody(HibernateTune)] else []));
      }
    }

    method SetPending()
      requires Begun()
      modifies this`hibernationPending
      ensures State() == old(State()).(hold := old(State()).hold.(pending := true))
    {
      hibernationPending := true;
    }

    /** The 8-second cancel of `handleHibernation`. */
    method CancelHibernation(now: nat)
      requires Begun()
      modifies this`hibernationPending, this`buttonWasPressed, this`buttonPressStart, this`events,
               this`alert, this`alertExpiry, this`nextRefresh
      ensures State() == HoldCancel(config, old(State()), now)
    {
      if hibernationPending && Elapsed(now, buttonPressStart) >= LONG_PRESS_MILLIS + HIBERNATE_CANCEL_MILLIS {
        ResetHold();
        LogEvents(if config.buzzer then [Melody(CancelTune)] else []);
        ShowAlert("Power off cancelled", 1500, now);
        SetRefresh(0);
      }
    }

    /** One call a screen makes into the UITask while it handles a key. */
    method ApplyCall(call: TaskCall, now: nat)
      requires Wired()
      modifies sensors, prefs, this`events, this`alert, this`alertExpiry, this`nextRefresh, this`curr,
               this`screensaverOn
      ensures Wired() && State() == CompanionSpec.ApplyCall(config, old(State()), call, now)
    {
      match call
      case ShowAlert(text, millis) => ShowAlert(text, millis, now);
      case Notify(t) => Notify(t);
      case EnableSerial => LogEvents([SerialEnabled]);
      case DisableSerial => LogEvents([SerialDisabled]);
      case SendAdvert => LogEvents([AdvertSent]);
      case SavePrefs => LogEvents([PrefsSaved]);
      case ToggleGps => ToggleGps(now);
      case ToggleScreensaver => ToggleScreensaver(now);
      case GotoHome => GotoHomeScreen();
    }

    /** The calls a screen made, in order. */
    method ApplyCalls(calls: seq<TaskCall>, now: nat)
      requires Wired()
      modifies sensors, prefs, this`events, this`alert, this`alertExpiry, this`nextRefresh, this`curr,
               this`screensaverOn
      ensures Wired() && State() == CompanionSpec.ApplyCalls(config, old(State()), calls, now)
    {
      var i := 0;
      while i < |calls|
        invariant 0 <= i <= |calls|
        invariant Wired() && State() == CompanionSpec.ApplyCalls(config, old(State()), calls[..i], now)
      {
        ApplyCall(calls[i], now);
        assert calls[..i + 1][..i] == calls[..i];
        i := i + 1;
      }
      assert calls[..|calls|] == calls;
    }

    /** The home screen's `handleInput`, before the UITask applies the calls it made. */
    method HomeInput(k: Key, serialEnabled: bool, advertOk: bool) returns (calls: seq<TaskCall>)
      requires Valid()
      modifies home, prefs
      ensures Wired()
      ensures var h := CompanionScreens.HomeInput(config.Layout(), old(State()).ui.home, k, old(State()).board.displayOn,
                                                  serialEnabled, advertOk);
        State() == HomeKey(config, old(State()), h) && calls == h.calls
    {
      var handled;
      handled, calls := home.HandleInput(k, display != null && display.on, serialEnabled, advertOk);
    }

    /** The preview screen's `handleInput`, before the UITask applies the calls it made. */
    method PreviewInput(k: Key) returns (calls: seq<TaskCall>)
      requires Valid() && curr == Preview
      modifies preview
      ensures Wired()
      ensures var p := MsgPreview.PreviewInput(old(State()).ui.preview, k);
        State() == old(State()).(ui := old(State()).ui.(preview := p.view)) && calls == p.calls
    {
      var handled;
      handled, calls := preview.HandleInput(k);
    }

    /** `curr->handleInput(c)`. */
    method Dispatch(k: Key, tick: TickInput)
      requires Valid()
      modifies home, preview, sensors, prefs, this`events, this`alert, this`alertExpiry, this`nextRefresh,
               this`curr, this`screensaverOn
      ensures Valid() && State() == CompanionSpec.Dispatch(config, old(State()), k, tick)
    {
      if curr == Home {
        DispatchHome(k, tick);
      } else if curr == Preview {
        DispatchPreview(k, tick);
      }
    }

    method DispatchHome(k: Key, tick: TickInput)
      requires Valid() && curr == Home
      modifies home, sensors, prefs, this`events, this`alert, this`alertExpiry, this`nextRefresh,
               this`curr, this`screensaverOn
      ensures Wired() && State() == CompanionSpec.Dispatch(config, old(State()), k, tick)
    {
      var calls := HomeInput(k, tick.serialEnabled, tick.advertOk);
      ApplyCalls(calls, tick.now);
    }

    method DispatchPreview(k: Key, tick: TickInput)
      requires Valid() && curr == Preview
      modifies preview, sensors, prefs, this`events, this`alert, this`alertExpiry, this`nextRefresh,
               this`curr, this`screensaverOn
      ensures Wired() && State() == CompanionSpec.Dispatch(config, old(State()), k, tick)
    {
      var calls := PreviewInput(k);
      ApplyCalls(calls, tick.now);
    }

    /** The key handling of `loop`: the current screen handles the key, auto-off restarts, a refresh follows. */
    method InputStep(k: Key, tick: TickInput)
      requires Valid()
      modifies home, preview, sensors, prefs, this`events, this`alert, this`alertExpiry, this`nextRefresh,
               this`curr, this`screensaverOn, this`autoOff
      ensures Valid() && State() == CompanionSpec.InputStep(config, old(State()), k, tick)
    {
      if k != NoKey && curr != NoScreen {
        Dispatch(k, tick);
        SetAutoOff(tick.now + AUTO_OFF_MILLIS);
        SetRefresh(SOON);
      }
    }

    /** `curr->poll()`: the splash screen goes home once its time is up. */
    method Poll(now: nat)
      requires Valid()
      modifies this`curr, this`nextRefresh
      ensures Valid() && State() == CompanionSpec.Poll(old(State()), now)
    {
      if curr == Splash && splash.Dismissed(now) {
        GotoHomeScreen();
      }
    }

    /**
     * The rendering part of `loop`: `curr->render` when the lit display is due, then the next
     * refresh, at the alert's end while one shows. `recent` is the mesh's recent-adverts table.
     */
    method RenderStep(tick: TickInput, recent: seq<AdvertPath>)
      requires Valid() && |recent| == UI_RECENT_LIST_SIZE && tick.recentEmpty == (recent[0].name == [])
      modifies home, this`nextRefresh
      ensures Valid() && State() == CompanionSpec.RenderStep(config, old(State()), tick)
    {
      if display != null && display.on && tick.now >= nextRefresh && curr != NoScreen {
        var delay := RenderCurrent(tick, recent, display);
        SetRefresh(if tick.now < alertExpiry then alertExpiry else tick.now + delay);
      }
    }

    /** `curr->render`: the home screen's page and scroll state move on; the returned delay. */
    method RenderCurrent(tick: TickInput, recent: seq<AdvertPath>, driver: DisplayDriver) returns (delay: nat)
      requires Valid() && |recent| == UI_RECENT_LIST_SIZE && tick.recentEmpty == (recent[0].name == [])
      modifies home
      ensures Valid()
      ensures var rendered := RenderScreen(config, old(State()).ui, tick);
        delay == rendered.delay && State() == old(State()).(ui := old(State()).ui.(home := rendered.home))
    {
      delay := 1000;
      if curr == Home {
        var rows;
        delay, rows := home.Render(tick.now, tick.nowSecs, tick.sensorCount, recent, driver);
      } else if curr == Preview {
        var frame := preview.Render(tick.nowSecs, driver);
        delay := frame.delay;
      }
    }

    /** The auto-off part of `loop`: the screensaver on the home screen, else the display off. */
    method AutoOff(now: nat)
      requires Valid()
      modifies home, display, this`nextRefresh
      ensures Valid() && State() == AutoOffStep(config, old(State()), now)
    {
      if display != null && display.on && now > autoOff && !forceBacklight {
        if screensaverOn && curr == Home {
          EnterScreensaver();
          SetRefresh(0);
        } else {
          DarkenDisplay();
        }
      }
    }

    /** The low-battery part of `loop`, with `getBattMilliVolts()` as `milliVolts`. */
    method Battery(now: nat, milliVolts: nat)
      requires Begun()
      modifies this`events, display, this`nextBattCheck
      ensures State() == BatteryStep(config, old(State()), now, milliVolts)
    {
      match config.autoShutdownMillivolts
      case None =>
      case Some(threshold) =>
        if now > nextBattCheck {
          if 0 < milliVolts < threshold {
            Shutdown(false);
          }
          SetBattCheck(now + BATT_CHECK_MILLIS);
        }
    }

    /** `activateScreensaver` on the current home screen. */
    method EnterScreensaver()
      requires Valid() && curr == Home
      modifies home
      ensures Valid()
      ensures State() == old(State()).(ui := old(State()).ui.(home := Activate(config.Layout(), old(State()).ui.home)))
    {
      home.ActivateScreensaver();
    }

    /** Sets `next_batt_chck`. */
    method SetBattCheck(t: nat)
      requires Begun()
      modifies this`nextBattCheck
      ensures State() == BattCheckAt(old(State()), t)
    {
      nextBattCheck := t;
    }

    /** `loop`, one call of it. */
    method Loop(tick: TickInput, recent: seq<AdvertPath>)
      requires Valid() && |recent| == UI_RECENT_LIST_SIZE && tick.recentEmpty == (recent[0].name == [])
      modifies this, display, sensors, prefs, home, preview
      ensures Valid() && State() == CompanionSpec.Loop(config, old(State()), tick)
    {
      HandleHibernation(tick.now, tick.pressed);
      if !hibernationPending {
        LoopRest(tick, recent);
      }
    }

    /** `loop` after `handleHibernation`, when no hibernation is pending. */
    method LoopRest(tick: TickInput, recent: seq<AdvertPath>)
      requires Valid() && |recent| == UI_RECENT_LIST_SIZE && tick.recentEmpty == (recent[0].name == [])
      modifies home, display, preview, sensors, prefs, this`events, this`alert, this`alertExpiry, this`nextRefresh,
               this`curr, this`screensaverOn, this`autoOff, this`buzzerQuiet, this`forceBacklight,
               this`nextBattCheck, this`ledState, this`nextLedChange, this`lastLedIncrement
      ensures Valid() && State() == CompanionSpec.Housekeeping(config, CompanionSpec.ButtonInput(config, old(State()), tick), tick)
    {
      ButtonInput(tick);
      Housekeeping(tick, recent);
    }

    /** The button handling of `loop`: the key it maps to, handled by the current screen. */
    method ButtonInput(tick: TickInput)
      requires Valid()
      modifies home, display, preview, sensors, prefs, this`events, this`alert, this`alertExpiry, this`nextRefresh,
               this`curr, this`screensaverOn, this`autoOff, this`buzzerQuiet, this`forceBacklight
      ensures Valid() && State() == CompanionSpec.ButtonInput(config, old(State()), tick)
    {
      var k := ButtonKey(tick.button, tick.now);
      InputStep(k, tick);
    }

    /** The rest of `loop`, after the buttons. */
    method Housekeeping(tick: TickInput, recent: seq<AdvertPath>)
      requires Valid() && |recent| == UI_RECENT_LIST_SIZE && tick.recentEmpty == (recent[0].name == [])
      modifies home, display, this`events, this`nextRefresh, this`curr, this`nextBattCheck,
               this`ledState, this`nextLedChange, this`lastLedIncrement
      ensures Valid() && State() == CompanionSpec.Housekeeping(config, old(State()), tick)
    {
      UserLedHandler(tick.now);
      Poll(tick.now);
      RenderStep(tick, recent);
      AutoOff(tick.now);
      Battery(tick.now, tick.battMilliVolts);
    }
  }

  /** The three screens `begin` creates. */
  method NewScreens(layout: Layout, prefs: NodePrefs, firmwareVersion: string, now: nat)
    returns (splash: SplashScreen, home: HomeScreen, preview: MsgPreviewScreen)
    ensures splash.dismissAfter == now + BOOT_SCREEN_MILLIS
    ensures home.layout == layout && home.prefs == prefs && home.View() == HomeView(FIRST, FIRST, false, 0, false, 0, 0)
    ensures preview.View() == PreviewView(BlankSlots(), MAX_UNREAD_MSGS - 1, 0)
  {
    splash := new SplashScreen(firmwareVersion, now);
    home := new HomeScreen(layout, prefs);
    preview := new MsgPreviewScreen();
  }

  /** The GPS part of `begin`: the stored preference written to the sensor settings. */
  method ApplyGpsPrefs(sensors: SensorManager, prefs: NodePrefs)
    modifies sensors
    ensures sensors.settings == GpsPrefsApplied(old(sensors.settings), prefs.View())
  {
    sensors.SetSettingValue("gps", if prefs.gpsEnabled then "1" else "0");
    if prefs.gpsInterval > 0 {
      sensors.SetSettingValue("gps_interval", Decimal.FromNat(prefs.gpsInterval));
    }
  }

  /** The front-to-back `strcmp` search of `getGPSState` and `toggleGPS` for the setting called "gps". */
  method GpsIndex(sensors: SensorManager) returns (r: Option<nat>)
    ensures r == FindSetting(sensors.settings, "gps")
  {
    var i := 0;
    while i < |sensors.settings|
      invariant 0 <= i <= |sensors.settings|
      invariant forall k :: 0 <= k < i ==> sensors.settings[k].name != "gps"
    {
      if sensors.settings[i].name == "gps" {
        FindFirst(sensors.settings, "gps", i);
        return Some(i);
      }
      i := i + 1;
    }
    return None;
  }
}
