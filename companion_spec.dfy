/**
 * The companion radio's `UITask` (examples/companion_radio/ui-new/UITask.cpp) as a state machine
 * on values: the whole task state as one record, and one function per operation and per phase of
 * `loop`. The class in CompanionTask is proved to follow these functions; the lemmas here state
 * what the functions guarantee.
 *
 * The build modelled has one user button (`PIN_USER_BTN`, no joystick, no analogue button)
 * and `AUTO_OFF_MILLIS` 10000. Whether GPS and the sensors page are compiled in, whether there is
 * a buzzer or a status LED, and the automatic-shutdown voltage are the Config values.
 */
module CompanionSpec {
  import opened Common
  import Decimal
  import opened CompanionScreens
  import opened MsgPreview

  const AUTO_OFF_MILLIS: nat := 10000
  const LONG_PRESS_MILLIS: nat := 5000
  const HIBERNATE_CANCEL_MILLIS: nat := 3000
  /** A long press this soon after start enters the CLI rescue mode. */
  const RESCUE_WINDOW_MILLIS: nat := 8000
  /** Hibernation is only offered once the UI has been up this long. */
  const HIBERNATE_MIN_UPTIME_MILLIS: nat := 10000
  const LED_ON_MILLIS: int := 20
  const LED_ON_MSG_MILLIS: int := 200
  const LED_CYCLE_MILLIS: int := 4000
  const BATT_CHECK_MILLIS: nat := 8000
  /** `_next_refresh` after a key or a screen change: a refresh as soon as possible. */
  const SOON: nat := 100

  /** The compile-time choices that change what the UITask does. */
  datatype Config = Config(gps: bool, sensorsPage: bool, buzzer: bool, statusLed: bool,
                           autoShutdownMillivolts: Option<nat>)
  {
    function Layout(): Layout {
      CompanionScreens.Layout(gps, sensorsPage)
    }
  }

  /** Which screen `curr` points at. */
  datatype ScreenId = NoScreen | Splash | Home | Preview

  /** What the button library reports for one `check()`. */
  datatype ButtonEvent = NoButtonEvent | Click | LongPress | DoubleClick | TripleClick | QuadrupleClick

  /** The buzzer tunes. */
  datatype Tune = MsgTune | ChannelTune | AckTune | HibernateTune | CancelTune

  /** Effects on the world outside the UI, in the order they happen. */
  datatype Event =
    | PrefsSaved
    | SerialEnabled
    | SerialDisabled
    | AdvertSent
    | Melody(tune: Tune)
    | RescueEntered
    | GpsPower(on: bool)
    | HibernationWarningShown
    | Rebooted
    | RadioPoweredOff
    | BoardPoweredOff

  /** The status LED's `led_state`, `next_led_change` and `last_led_increment` (C `int`s). */
  datatype Led = Led(state: int, nextChange: int, lastIncrement: int)

  /** The peripherals the UITask owns: the display (its presence and `isOn`) and the sensor settings. */
  datatype Board = Board(hasDisplay: bool, displayOn: bool, hasSensors: bool, settings: seq<Setting>)

  /** `curr` and the three screens' own state (the splash screen only has its dismissal time). */
  datatype Screens = Screens(curr: ScreenId, splashDismiss: nat, home: HomeView, preview: PreviewView)

  /** `_next_refresh`, `_auto_off`, the UI's start time and `_next_batt_chck`. */
  datatype Timers = Timers(nextRefresh: nat, autoOff: nat, uiStartedAt: nat, nextBattCheck: nat)

  /** `_alert` and `_alert_expiry`. */
  datatype Alert = Alert(text: string, expiry: nat)

  /** The screensaver setting, `_forceBacklight` and the buzzer's quiet mode. */
  datatype Modes = Modes(screensaverOn: bool, forceBacklight: bool, buzzerQuiet: bool)

  /** `_button_press_start`, `_button_was_pressed` and `_hibernation_pending`. */
  datatype Hold = Hold(pressStart: nat, wasPressed: bool, pending: bool)

  /** Everything the UITask and its screens hold, as values. */
  datatype TaskState = TaskState(
    board: Board,
    prefs: Prefs,
    ui: Screens,
    timers: Timers,
    alert: Alert,
    msgCount: int,
    modes: Modes,
    hold: Hold,
    led: Led,
    events: seq<Event>)

  /**
   * What holds between ticks once `begin` has run: the screens' own invariants, a current screen,
   * and the preview screen is only shown while it has something unread.
   */
  predicate Inv(c: Config, s: TaskState) {
    ScreensInv(c, s.ui)
  }

  predicate ScreensInv(c: Config, u: Screens) {
    HomeInv(c.Layout(), u.home) && PreviewInv(u.preview) && u.curr != NoScreen
    && (u.curr == Preview ==> u.preview.numUnread >= 1)
  }

  /** A state with `evs` appended to its events. */
  function Log(s: TaskState, evs: seq<Event>): (r: TaskState)
    ensures r.events == s.events + evs && r == s.(events := r.events)
  {
    s.(events := s.events + evs)
  }

  /** A state with `_next_refresh` set to `t`. */
  function RefreshAt(s: TaskState, t: nat): (r: TaskState)
    ensures r.timers.nextRefresh == t && r == s.(timers := s.timers.(nextRefresh := t))
  {
    s.(timers := s.timers.(nextRefresh := t))
  }

  /** A state with `_auto_off` set to `t`. */
  function AutoOffAt(s: TaskState, t: nat): (r: TaskState)
    ensures r.timers.autoOff == t && r == s.(timers := s.timers.(autoOff := t))
  {
    s.(timers := s.timers.(autoOff := t))
  }

  /** A state with `next_batt_chck` set to `t`. */
  function BattCheckAt(s: TaskState, t: nat): (r: TaskState)
    ensures r.timers.nextBattCheck == t && r == s.(timers := s.timers.(nextBattCheck := t))
  {
    s.(timers := s.timers.(nextBattCheck := t))
  }

  /** A state whose display, if there is one, has been switched on. */
  function DisplayLit(s: TaskState): (r: TaskState)
    ensures r.board.displayOn == s.board.hasDisplay && r == s.(board := r.board)
    ensures r.board == s.board.(displayOn := s.board.hasDisplay)
  {
    s.(board := s.board.(displayOn := s.board.hasDisplay))
  }

  /** A state whose display has been switched off. */
  function DisplayDark(s: TaskState): (r: TaskState)
    ensures !r.board.displayOn && r == s.(board := s.board.(displayOn := false))
  {
    s.(board := s.board.(displayOn := false))
  }

  /** A state with the button's hold tracking cleared: not pressed, no start time, nothing pending. */
  function ClearHold(s: TaskState): (r: TaskState)
    ensures r.hold == Hold(0, false, false) && r == s.(hold := r.hold)
  {
    s.(hold := Hold(0, false, false))
  }

  // ---------------------------------------------------------------------------------------
  // Start-up

  /** The settings after `begin` applies the stored GPS preference and, when set, the GPS interval. */
  function GpsPrefsApplied(settings: seq<Setting>, p: Prefs): (r: seq<Setting>)
    ensures |r| == |settings|
  {
    var s1 := SetSetting(settings, "gps", if p.gpsEnabled then "1" else "0");
    if p.gpsInterval > 0 then SetSetting(s1, "gps_interval", Decimal.FromNat(p.gpsInterval)) else s1
  }

  /**
   * `begin` on a task fresh from its constructor: the display (when there is one) lit, the GPS
   * setting and hardware following the preferences when GPS is compiled in, the screensaver and
   * buzzer settings loaded, the screens created and the splash screen current.
   */
  function Begin(c: Config, hasDisplay: bool, sensors: Option<seq<Setting>>, p: Prefs, now: nat): (r: TaskState)
  {
    TaskState(BeginBoard(c, hasDisplay, sensors, p), p, InitialScreens(now), Timers(SOON, now + AUTO_OFF_MILLIS, now, 0),
              Alert("", 0), 0, Modes(p.screensaverEnabled, false, c.buzzer && p.buzzerQuiet), Hold(0, false, false),
              Led(0, 0, 0), if c.gps && sensors.Some? then [GpsPower(p.gpsEnabled)] else [])
  }

  /** The board after `begin`: the display lit, the stored GPS preference applied when GPS is compiled in. */
  function BeginBoard(c: Config, hasDisplay: bool, sensors: Option<seq<Setting>>, p: Prefs): Board {
    Board(hasDisplay, hasDisplay, sensors.Some?,
          match sensors
          case None => []
          case Some(st) => if c.gps then GpsPrefsApplied(st, p) else st)
  }

  /** The screens `begin` creates: the splash screen current, the home screen on its first page, nothing unread. */
  function InitialScreens(now: nat): Screens {
    Screens(Splash, now + BOOT_SCREEN_MILLIS, HomeView(FIRST, FIRST, false, 0, false, 0, 0),
            PreviewView(BlankSlots(), MAX_UNREAD_MSGS - 1, 0))
  }

  lemma BeginInv(c: Config, hasDisplay: bool, sensors: Option<seq<Setting>>, p: Prefs, now: nat)
    ensures Inv(c, Begin(c, hasDisplay, sensors, p, now))
  {
  }

  /** A setting written under another name does not disturb the search for this one. */
  lemma FindAfterOtherSet(settings: seq<Setting>, name: string, other: string, value: string)
    requires name != other
    ensures FindSetting(SetSetting(settings, other, value), name) == FindSetting(settings, name)
  {
    var r := SetSetting(settings, other, value);
    match FindSetting(settings, name)
    case None =>
    case Some(i) =>
      FindFirst(r, name, i);
  }

  /**
   * After `begin` the invariant holds, the splash screen shows, a display is lit, the screensaver
   * follows the preferences, and with GPS compiled in and a "gps" setting, `getGPSState` reads the
   * stored preference, whose value the hardware was set to.
   */
  lemma BeginState(c: Config, hasDisplay: bool, sensors: Option<seq<Setting>>, p: Prefs, now: nat)
    ensures var r := Begin(c, hasDisplay, sensors, p, now);
      Inv(c, r) && r.ui.curr == Splash && r.board.displayOn == hasDisplay
      && r.modes.screensaverOn == p.screensaverEnabled && Unread(r.ui.preview) == []
      && (c.gps && sensors.Some? && FindSetting(sensors.value, "gps").Some? ==>
            GpsState(r.board) == p.gpsEnabled && r.events == [GpsPower(p.gpsEnabled)])
  {
    if c.gps && sensors.Some? && FindSetting(sensors.value, "gps").Some? {
      var st := sensors.value;
      var s1 := SetSetting(st, "gps", if p.gpsEnabled then "1" else "0");
      FindAfterSet(st, "gps", if p.gpsEnabled then "1" else "0");
      if p.gpsInterval > 0 {
        FindAfterOtherSet(s1, "gps", "gps_interval", Decimal.FromNat(p.gpsInterval));
      }
    }
  }

  /** The splash screen gives way to the home screen once its 3 s are up, and not before. */
  lemma SplashDismissal(c: Config, hasDisplay: bool, sensors: Option<seq<Setting>>, p: Prefs, now: nat, later: nat)
    ensures var r := Poll(Begin(c, hasDisplay, sensors, p, now), later);
      (later >= now + BOOT_SCREEN_MILLIS ==> r.ui.curr == Home && r.timers.nextRefresh == SOON)
      && (later < now + BOOT_SCREEN_MILLIS ==> r.ui.curr == Splash)
  {
  }

  // ---------------------------------------------------------------------------------------
  // Small operations

  /** `showAlert`: the text, shown until `now + millis`. */
  function ShowAlert(s: TaskState, text: string, millis: nat, now: nat): (r: TaskState)
    ensures r.alert.text == text && r.alert.expiry == now + millis && r == s.(alert := r.alert)
  {
    s.(alert := Alert(text, now + millis))
  }

  /** `setCurrScreen`: switch and ask for a refresh soon. */
  function SetCurr(s: TaskState, id: ScreenId): (r: TaskState)
    ensures r.ui.curr == id && r.timers.nextRefresh == SOON
    ensures r == s.(ui := s.ui.(curr := id), timers := s.timers.(nextRefresh := SOON))
  {
    RefreshAt(s.(ui := s.ui.(curr := id)), SOON)
  }

  /** `gotoHomeScreen`. */
  function GotoHomeScreen(s: TaskState): (r: TaskState)
    ensures r.ui.curr == Home && r.timers.nextRefresh == SOON
    ensures r == s.(ui := s.ui.(curr := Home), timers := s.timers.(nextRefresh := SOON))
  {
    SetCurr(s, Home)
  }

  /** `notify`: with a buzzer, a tune for contact and channel messages and for acks; nothing else. */
  function Notify(c: Config, s: TaskState, t: UIEventType): (r: TaskState)
    ensures r == s.(events := r.events)
    ensures !c.buzzer || t !in {ContactMessage, ChannelMessage, Ack} ==> r == s
    ensures c.buzzer && t == ContactMessage ==> r.events == s.events + [Melody(MsgTune)]
    ensures c.buzzer && t == ChannelMessage ==> r.events == s.events + [Melody(ChannelTune)]
    ensures c.buzzer && t == Ack ==> r.events == s.events + [Melody(AckTune)]
  {
    if !c.buzzer then s
    else match t
      case ContactMessage => Log(s, [Melody(MsgTune)])
      case ChannelMessage => Log(s, [Melody(ChannelTune)])
      case Ack => Log(s, [Melody(AckTune)])
      case _ => s
  }

  /** `msgRead`: record the count; back home when none is left. */
  function MsgRead(s: TaskState, count: int): (r: TaskState)
    ensures r.msgCount == count
    ensures count == 0 ==> r == GotoHomeScreen(s.(msgCount := 0))
    ensures count != 0 ==> r == s.(msgCount := count)
  {
    var s1 := s.(msgCount := count);
    if count == 0 then GotoHomeScreen(s1) else s1
  }

  /** Whether the home screen is on its screensaver and is the current screen. */
  predicate OnScreensaver(c: Config, u: Screens) {
    u.curr == Home && u.home.page == c.Layout().Screensaver()
  }

  /** The screen part of `newMsg`: buffer the preview and show it unless the screensaver is up. */
  function NewMsgScreens(c: Config, u: Screens, e: MsgEntry): (r: Screens)
    requires 0 <= u.preview.head < |u.preview.slots| == MAX_UNREAD_MSGS
    ensures r.home == u.home && r.preview == Push(u.preview, e)
    ensures r.curr == if OnScreensaver(c, u) then u.curr else Preview
    ensures OnScreensaver(c, r) == OnScreensaver(c, u)
  {
    var u1 := u.(preview := Push(u.preview, e));
    if OnScreensaver(c, u1) then u1 else u1.(curr := Preview)
  }

  /**
   * `newMsg`: buffer the preview, show it unless the screensaver is up, wake a dark display when
   * no app is connected, and keep a lit display on for another period.
   */
  function NewMsg(c: Config, s: TaskState, pathLen: byte, fromName: seq<byte>, text: seq<byte>, count: int,
                  now: nat, nowSecs: nat, hasConnection: bool): (r: TaskState)
    requires 0 <= s.ui.preview.head < |s.ui.preview.slots| == MAX_UNREAD_MSGS
    ensures r.msgCount == count
    ensures r.ui == NewMsgScreens(c, s.ui, PreviewEntry(nowSecs, pathLen, fromName, text))
  {
    NewMsgDisplay(c, NewMsgBuffer(c, s, PreviewEntry(nowSecs, pathLen, fromName, text), count), now, hasConnection)
  }

  /** The first half of `newMsg`: the count stored, the entry buffered, the preview shown and redrawn soon. */
  function NewMsgBuffer(c: Config, s: TaskState, e: MsgEntry, count: int): (r: TaskState)
    requires 0 <= s.ui.preview.head < |s.ui.preview.slots| == MAX_UNREAD_MSGS
    ensures r.msgCount == count && r.ui == NewMsgScreens(c, s.ui, e)
    ensures Inv(c, s) ==> Inv(c, r)
  {
    ShowPreview(c, StoreMsg(s, e, count), OnScreensaver(c, s.ui))
  }

  /** The count stored and the entry buffered. */
  function StoreMsg(s: TaskState, e: MsgEntry, count: int): (r: TaskState)
    requires 0 <= s.ui.preview.head < |s.ui.preview.slots| == MAX_UNREAD_MSGS
    ensures r.ui.preview == Push(s.ui.preview, e)
  {
    s.(msgCount := count, ui := s.ui.(preview := Push(s.ui.preview, e)))
  }

  /** The preview screen made current, unless the screensaver was up. */
  function ShowPreview(c: Config, s: TaskState, onScreensaver: bool): (r: TaskState)
    ensures r.ui.curr == if onScreensaver then s.ui.curr else Preview
  {
    if onScreensaver then s else SetCurr(s, Preview)
  }

  /** The second half of `newMsg`: a dark display lit when no app is connected, a lit one kept on. */
  function NewMsgDisplay(c: Config, s: TaskState, now: nat, hasConnection: bool): (r: TaskState)
    ensures r.ui == s.ui && r.msgCount == s.msgCount
  {
    if s.board.hasDisplay then
      var s1 := if !s.board.displayOn && !hasConnection then DisplayLit(s) else s;
      if s1.board.displayOn && !OnScreensaver(c, s.ui) then RefreshAt(AutoOffAt(s1, now + AUTO_OFF_MILLIS), SOON)
      else s1
    else s
  }

  /**
   * A new message, its text cut to 77 bytes, is shown first in the preview list, and the preview screen becomes current
   * unless the home screensaver is up, which then stays as it was.
   */
  lemma NewMsgShowsPreview(c: Config, s: TaskState, pathLen: byte, fromName: seq<byte>, text: seq<byte>,
                           count: int, now: nat, nowSecs: nat, hasConnection: bool)
    requires Inv(c, s)
    ensures var r := NewMsg(c, s, pathLen, fromName, text, count, now, nowSecs, hasConnection);
      Inv(c, r) && r.msgCount == count
      && Unread(r.ui.preview)[0] == PreviewEntry(nowSecs, pathLen, fromName, text)
      && Unread(r.ui.preview)[0].msg == text[..Min(|text|, MSG_SIZE - 1)]
      && (OnScreensaver(c, s.ui) ==> r.ui.curr == Home && r.ui.home == s.ui.home)
      && (!OnScreensaver(c, s.ui) ==> r.ui.curr == Preview)
  {
    PushUnread(s.ui.preview, PreviewEntry(nowSecs, pathLen, fromName, text));
  }

  /**
   * The display of a new message: a dark display is lit only when no app is connected; when the
   * preview is shown on a lit display, auto-off moves to `now + AUTO_OFF_MILLIS`.
   */
  lemma NewMsgWakesDisplay(c: Config, s: TaskState, pathLen: byte, fromName: seq<byte>, text: seq<byte>,
                           count: int, now: nat, nowSecs: nat, hasConnection: bool)
    requires Inv(c, s) && s.board.hasDisplay
    ensures var r := NewMsg(c, s, pathLen, fromName, text, count, now, nowSecs, hasConnection);
      (r.board.displayOn <==> s.board.displayOn || !hasConnection)
      && (r.board.displayOn && !OnScreensaver(c, s.ui) ==>
            r.timers.autoOff == now + AUTO_OFF_MILLIS && r.timers.nextRefresh == SOON)
      && (OnScreensaver(c, s.ui) ==> r.timers == s.timers)
  {
  }

  /**
   * `userLedHandler`, on the 32-bit `int` reading of `millis()` it uses; the next change time is
   * an `int` too, so the sums that set it wrap.
   */
  function UserLed(c: Config, s: TaskState, now: nat): (r: TaskState)
    ensures r == s.(led := r.led)
  {
    if !c.statusLed then s
    else
      var cur := ToInt32(now % MILLIS_WRAP);
      if cur > s.led.nextChange then
        if s.led.state == 0 then
          var inc := if s.msgCount > 0 then LED_ON_MSG_MILLIS else LED_ON_MILLIS;
          s.(led := Led(1, WrapInt32(cur + inc), inc))
        else
          s.(led := Led(0, WrapInt32(cur + LED_CYCLE_MILLIS - s.led.lastIncrement), s.led.lastIncrement))
      else s
  }

  /**
   * One blink: from dark, the LED lights for 20 ms (200 ms while messages are waiting), then
   * stays dark for the rest of a 4000 ms cycle; before its change time it is left alone. The
   * lengths hold modulo 2^32 always, and exactly while the change times do not pass the `int` limit.
   */
  lemma LedBlinkCycle(c: Config, s: TaskState, now1: nat, now2: nat)
    requires c.statusLed && s.led.state == 0 && ToInt32(now1 % MILLIS_WRAP) > s.led.nextChange
    ensures var r1 := UserLed(c, s, now1);
      var cur1 := ToInt32(now1 % MILLIS_WRAP);
      var inc := if s.msgCount > 0 then LED_ON_MSG_MILLIS else LED_ON_MILLIS;
      r1.led.state == 1 && r1.led.lastIncrement == inc
      && (r1.led.nextChange - cur1 - inc) % MILLIS_WRAP == 0
      && (cur1 + inc < 0x8000_0000 ==> r1.led.nextChange - cur1 == inc)
      && (ToInt32(now2 % MILLIS_WRAP) <= r1.led.nextChange ==> UserLed(c, r1, now2) == r1)
      && (ToInt32(now2 % MILLIS_WRAP) > r1.led.nextChange ==>
            var cur2 := ToInt32(now2 % MILLIS_WRAP);
            var r2 := UserLed(c, r1, now2);
            r2.led.state == 0
            && (r2.led.nextChange - cur2 - (LED_CYCLE_MILLIS - inc)) % MILLIS_WRAP == 0
            && (cur1 + inc < 0x8000_0000 && cur2 + LED_CYCLE_MILLIS - inc < 0x8000_0000 ==>
                  (r1.led.nextChange - cur1) + (r2.led.nextChange - cur2) == LED_CYCLE_MILLIS))
  {
  }

  /**
   * Near the `int` limit the change time wraps to a negative value, so the LED lit there goes dark
   * again at the very next call instead of staying lit.
   */
  lemma LedWrapTurnsOff(c: Config, s: TaskState)
    requires c.statusLed && s.msgCount == 0 && s.led == Led(0, 0x8000_0000 - 20, 0)
    ensures var r1 := UserLed(c, s, 0x8000_0000 - 10);
      r1.led == Led(1, -0x8000_0000 + 10, LED_ON_MILLIS)
      && UserLed(c, r1, 0x8000_0000 - 9).led.state == 0
  {
    var x := 0x8000_0000 - 10 + LED_ON_MILLIS;
    assert x - MILLIS_WRAP == -0x8000_0000 + 10;
    WrapUnique(x, -0x8000_0000 + 10, 1);
  }

  /**
   * Once `millis()` passes 2^31 its `int` reading is negative, so a change time set before that
   * point is not reached again until the reading wraps back: the LED holds its state through the
   * whole second half of each 2^32 ms period.
   */
  lemma LedHoldsWhileClockNegative(c: Config, s: TaskState, now: nat)
    requires s.led.nextChange >= 0 && now % MILLIS_WRAP >= 0x8000_0000
    ensures UserLed(c, s, now) == s
  {
  }

  /** `getGPSState`: the value of the first setting called "gps" is "1". */
  predicate GpsState(b: Board) {
    b.hasSensors
    && match FindSetting(b.settings, "gps")
       case Some(i) => b.settings[i].value == "1"
       case None => false
  }

  /** `shutdown`: a reboot, or GPS off if it is on, the display off, the radio and the board powered off. */
  function Shutdown(s: TaskState, restart: bool): (r: TaskState)
    ensures restart ==> r == Log(s, [Rebooted])
    ensures !restart ==> r == Log(s.(board := s.board.(displayOn := false)),
                                  (if GpsState(s.board) then [GpsPower(false)] else []) + [RadioPoweredOff, BoardPoweredOff])
  {
    if restart then Log(s, [Rebooted])
    else
      var s1 := if GpsState(s.board) then Log(s, [GpsPower(false)]) else s;
      assert s1.events == s.events + (if GpsState(s.board) then [GpsPower(false)] else []);
      Log(DisplayDark(s1), [RadioPoweredOff, BoardPoweredOff])
  }

  /** A power-off always leaves the display dark and ends with the radio and then the board switched off. */
  lemma ShutdownPowersOff(s: TaskState)
    ensures var r := Shutdown(s, false);
      !r.board.displayOn && r.ui == s.ui
      && |r.events| >= |s.events| + 2 && r.events[|r.events| - 2..] == [RadioPoweredOff, BoardPoweredOff]
      && r.events[..|s.events|] == s.events
      && (GpsPower(false) in r.events[|s.events|..] <==> GpsState(s.board))
  {
    var r := Shutdown(s, false);
    var tail := (if GpsState(s.board) then [GpsPower(false)] else []) + [RadioPoweredOff, BoardPoweredOff];
    assert r.events[|s.events|..] == tail;
  }

  // ---------------------------------------------------------------------------------------
  // Toggles

  /** The board after `toggleGPS` found the "gps" setting at `i`: the flipped value written back. */
  function FlipGps(b: Board, i: nat): (r: Board)
    requires i < |b.settings|
    ensures r == b.(settings := r.settings)
  {
    b.(settings := SetSetting(b.settings, "gps", if b.settings[i].value == "1" then "0" else "1"))
  }

  /** `toggleGPS`: flip the "gps" setting and the preference, switch the hardware, confirm. */
  function ToggleGps(c: Config, s: TaskState, now: nat): (r: TaskState)
    ensures r.ui == s.ui
  {
    if !s.board.hasSensors then s
    else match FindSetting(s.board.settings, "gps")
      case None => s
      case Some(i) =>
        var s1 := StoreGps(s, i);
        var s2 := Log(Notify(c, Log(s1, [GpsPower(s1.prefs.gpsEnabled)]), Ack), [PrefsSaved]);
        RefreshAt(ShowAlert(s2, if s2.prefs.gpsEnabled then "GPS: Enabled" else "GPS: Disabled", 800, now), 0)
  }

  /** The flipped "gps" value written to the sensor settings and to the preference. */
  function StoreGps(s: TaskState, i: nat): (r: TaskState)
    requires i < |s.board.settings|
    ensures r.prefs.gpsEnabled == !(s.board.settings[i].value == "1")
    ensures r == s.(board := FlipGps(s.board, i), prefs := r.prefs)
  {
    s.(board := FlipGps(s.board, i), prefs := s.prefs.(gpsEnabled := !(s.board.settings[i].value == "1")))
  }

  /** Writing the flipped value back makes `getGPSState` read the opposite. */
  lemma FlipGpsFlips(b: Board, i: nat)
    requires b.hasSensors && FindSetting(b.settings, "gps") == Some(i)
    ensures GpsState(FlipGps(b, i)) == !GpsState(b)
    ensures FindSetting(FlipGps(b, i).settings, "gps") == Some(i)
  {
    FindAfterSet(b.settings, "gps", if b.settings[i].value == "1" then "0" else "1");
  }

  /**
   * With a "gps" setting present, toggling flips `getGPSState`, the preference follows it, the
   * hardware is switched to match, and a second toggle restores the state; without one nothing
   * happens.
   */
  lemma ToggleGpsFlips(c: Config, s: TaskState, now1: nat, now2: nat)
    ensures s.board.hasSensors && FindSetting(s.board.settings, "gps").Some? ==>
      var r := ToggleGps(c, s, now1);
      GpsState(r.board) == !GpsState(s.board) && r.prefs.gpsEnabled == GpsState(r.board)
      && r.events[|s.events|] == GpsPower(GpsState(r.board))
      && r.alert.expiry == now1 + 800 && r.timers.nextRefresh == 0
      && GpsState(ToggleGps(c, r, now2).board) == GpsState(s.board)
    ensures !(s.board.hasSensors && FindSetting(s.board.settings, "gps").Some?) ==> ToggleGps(c, s, now1) == s
  {
    if s.board.hasSensors && FindSetting(s.board.settings, "gps").Some? {
      var i := FindSetting(s.board.settings, "gps").value;
      FlipGpsFlips(s.board, i);
      var r := ToggleGps(c, s, now1);
      assert r.board == FlipGps(s.board, i);
      FlipGpsFlips(r.board, i);
      assert ToggleGps(c, r, now2).board == FlipGps(r.board, i);
    }
  }

  /** `toggleScreensaver`: flip the setting, store it in the preferences, save, confirm. */
  function ToggleScreensaver(s: TaskState, now: nat): (r: TaskState)
    ensures r.ui == s.ui
  {
    var s1 := Log(FlipScreensaver(s), [PrefsSaved]);
    RefreshAt(ShowAlert(s1, if s1.modes.screensaverOn then "Screensaver: ON" else "Screensaver: OFF", 1000, now), 0)
  }

  /** The flipped screensaver setting, stored in the preferences too. */
  function FlipScreensaver(s: TaskState): (r: TaskState)
    ensures r.modes.screensaverOn == !s.modes.screensaverOn && r.prefs.screensaverEnabled == r.modes.screensaverOn
    ensures r == s.(modes := r.modes, prefs := r.prefs)
  {
    var on := !s.modes.screensaverOn;
    s.(modes := s.modes.(screensaverOn := on), prefs := s.prefs.(screensaverEnabled := on))
  }

  lemma ToggleScreensaverInvolution(s: TaskState, now1: nat, now2: nat)
    ensures var r := ToggleScreensaver(s, now1);
      r.modes.screensaverOn == !s.modes.screensaverOn && r.prefs.screensaverEnabled == r.modes.screensaverOn
      && r.events == s.events + [PrefsSaved] && r.alert.expiry == now1 + 1000 && r.timers.nextRefresh == 0
      && (r.alert.text == "Screensaver: ON" <==> r.modes.screensaverOn)
    ensures var r2 := ToggleScreensaver(ToggleScreensaver(s, now1), now2);
      r2.modes == s.modes && r2.prefs == s.prefs.(screensaverEnabled := s.modes.screensaverOn)
  {
  }

  /** `toggleBacklight`: flip the forced backlight, confirm, and restart the auto-off period. */
  function ToggleBacklight(s: TaskState, now: nat): (r: TaskState)
    ensures r.ui == s.ui
  {
    var s1 := FlipBacklight(s);
    var s2 := ShowAlert(s1, if s1.modes.forceBacklight then "Backlight: ALWAYS" else "Backlight: BUTTON ", 1000, now);
    RefreshAt(AutoOffAt(s2, now + AUTO_OFF_MILLIS), 0)
  }

  function FlipBacklight(s: TaskState): (r: TaskState)
    ensures r.modes.forceBacklight == !s.modes.forceBacklight
    ensures r == s.(modes := s.modes.(forceBacklight := r.modes.forceBacklight))
  {
    s.(modes := s.modes.(forceBacklight := !s.modes.forceBacklight))
  }

  lemma ToggleBacklightInvolution(s: TaskState, now1: nat, now2: nat)
    ensures var r := ToggleBacklight(s, now1);
      r.modes.forceBacklight == !s.modes.forceBacklight
      && r.timers.autoOff == now1 + AUTO_OFF_MILLIS && r.timers.nextRefresh == 0
      && r.alert.expiry == now1 + 1000
      && r.alert.text == (if r.modes.forceBacklight then "Backlight: ALWAYS" else "Backlight: BUTTON ")
    ensures ToggleBacklight(ToggleBacklight(s, now1), now2).modes == s.modes
  {
  }

  /** `toggleBuzzer`: with a buzzer, flip quiet mode (an ack tune when it is unmuted), save, confirm. */
  function ToggleBuzzer(c: Config, s: TaskState, now: nat): (r: TaskState)
    ensures r.ui == s.ui
  {
    if !c.buzzer then ShowAlert(s, "Buzzer N/A", 1000, now)
    else
      var s1 := if s.modes.buzzerQuiet then Notify(c, SetQuiet(s, false), Ack) else SetQuiet(s, true);
      var s2 := Log(StoreQuiet(s1), [PrefsSaved]);
      RefreshAt(ShowAlert(s2, if s2.modes.buzzerQuiet then "Buzzer: OFF" else "Buzzer: ON", 800, now), 0)
  }

  /** `buzzer.quiet(q)`. */
  function SetQuiet(s: TaskState, q: bool): (r: TaskState)
    ensures r.modes.buzzerQuiet == q && r == s.(modes := s.modes.(buzzerQuiet := q))
  {
    s.(modes := s.modes.(buzzerQuiet := q))
  }

  /** The buzzer's quiet mode copied into the preferences. */
  function StoreQuiet(s: TaskState): (r: TaskState)
    ensures r.prefs.buzzerQuiet == s.modes.buzzerQuiet && r == s.(prefs := s.prefs.(buzzerQuiet := s.modes.buzzerQuiet))
  {
    s.(prefs := s.prefs.(buzzerQuiet := s.modes.buzzerQuiet))
  }

  lemma ToggleBuzzerFlips(c: Config, s: TaskState, now1: nat, now2: nat)
    ensures c.buzzer ==>
      var r := ToggleBuzzer(c, s, now1);
      r.modes.buzzerQuiet == !s.modes.buzzerQuiet && r.prefs.buzzerQuiet == r.modes.buzzerQuiet
      && r.events == s.events + (if s.modes.buzzerQuiet then [Melody(AckTune)] else []) + [PrefsSaved]
      && ToggleBuzzer(c, r, now2).modes.buzzerQuiet == s.modes.buzzerQuiet
    ensures !c.buzzer ==> ToggleBuzzer(c, s, now1) == s.(alert := Alert("Buzzer N/A", now1 + 1000))
  {
  }

  // ---------------------------------------------------------------------------------------
  // Button handlers

  /** A handler's result: the new state and the key it passes on (`NoKey` when it consumed the press). */
  datatype KeyResult = KeyResult(state: TaskState, key: Key)

  /** The screens after `checkDisplayOn`: a lit screensaver is taken down. */
  function WakeScreens(c: Config, u: Screens, displayOn: bool): (r: Screens)
    ensures r.curr == u.curr && r.preview == u.preview
    ensures HomeInv(c.Layout(), u.home) ==> HomeInv(c.Layout(), r.home)
    ensures displayOn && OnScreensaver(c, u) ==> r.home == Deactivate(u.home)
    ensures !(displayOn && OnScreensaver(c, u)) ==> r == u
  {
    if displayOn && OnScreensaver(c, u) then u.(home := Deactivate(u.home)) else u
  }

  /**
   * `checkDisplayOn`: a press that only wakes the display, or that only leaves the screensaver,
   * is consumed; either way the display stays on for another period and is refreshed at once.
   */
  function CheckDisplayOn(c: Config, s: TaskState, k: Key, now: nat): (r: KeyResult)
    ensures r.state.ui == WakeScreens(c, s.ui, s.board.displayOn) || r.state.ui == s.ui
  {
    if !s.board.hasDisplay then KeyResult(s, k)
    else
      var consumed := !s.board.displayOn || OnScreensaver(c, s.ui);
      KeyResult(RefreshAt(AutoOffAt(Woken(c, s), now + AUTO_OFF_MILLIS), 0), if consumed then NoKey else k)
  }

  /** The screensaver taken down on a lit display, and the display lit. */
  function Woken(c: Config, s: TaskState): TaskState {
    DisplayLit(s.(ui := WakeScreens(c, s.ui, s.board.displayOn)))
  }

  lemma CheckDisplayOnGate(c: Config, s: TaskState, k: Key, now: nat)
    ensures var r := CheckDisplayOn(c, s, k, now);
      (s.board.hasDisplay ==>
         (r.key == NoKey <==> !s.board.displayOn || OnScreensaver(c, s.ui) || k == NoKey)
         && (r.key != NoKey ==> r.key == k)
         && r.state.board.displayOn && r.state.timers.autoOff == now + AUTO_OFF_MILLIS
         && r.state.timers.nextRefresh == 0
         && r.state.ui == WakeScreens(c, s.ui, s.board.displayOn))
      && (!s.board.hasDisplay ==> r == KeyResult(s, k))
  {
  }

  /** `handleLongPress`: within 8 s of start a long press enters the rescue CLI instead of acting. */
  function HandleLongPress(s: TaskState, k: Key, now: nat): (r: KeyResult)
    ensures r.state.ui == s.ui
  {
    if Elapsed(now, s.timers.uiStartedAt) < RESCUE_WINDOW_MILLIS then KeyResult(Log(s, [RescueEntered]), NoKey)
    else KeyResult(s, k)
  }

  lemma RescueGate(s: TaskState, k: Key, now: nat)
    ensures var r := HandleLongPress(s, k, now);
      (Elapsed(now, s.timers.uiStartedAt) < RESCUE_WINDOW_MILLIS <==> r.state.events == s.events + [RescueEntered])
      && (Elapsed(now, s.timers.uiStartedAt) < RESCUE_WINDOW_MILLIS ==> r.key == NoKey)
      && (Elapsed(now, s.timers.uiStartedAt) >= RESCUE_WINDOW_MILLIS ==> r == KeyResult(s, k))
  {
    assert |s.events + [RescueEntered]| != |s.events|;
  }

  /** `handleDoubleClick`: wakes like a click but passes the key on whatever the wake-up did. */
  function HandleDoubleClick(c: Config, s: TaskState, k: Key, now: nat): (r: KeyResult)
    ensures r.key == k
    ensures r.state == CheckDisplayOn(c, s, k, now).state
  {
    KeyResult(CheckDisplayOn(c, s, k, now).state, k)
  }

  /** `handleTripleClick`: wake, toggle the buzzer, consume. */
  function HandleTripleClick(c: Config, s: TaskState, k: Key, now: nat): (r: KeyResult)
    ensures r.key == NoKey
  {
    KeyResult(ToggleBuzzer(c, CheckDisplayOn(c, s, k, now).state, now), NoKey)
  }

  /** `handleQuadrupleClick`: wake, toggle the forced backlight, consume. */
  function HandleQuadrupleClick(c: Config, s: TaskState, k: Key, now: nat): (r: KeyResult)
    ensures r.key == NoKey
  {
    KeyResult(ToggleBacklight(CheckDisplayOn(c, s, k, now).state, now), NoKey)
  }

  /** The single-button mapping of `loop`: click NEXT, long press ENTER, double click PREV, more clicks SELECT. */
  function ButtonKey(c: Config, s: TaskState, ev: ButtonEvent, now: nat): (r: KeyResult)
    ensures r.state.ui == WakeScreens(c, s.ui, s.board.displayOn) || r.state.ui == s.ui
    ensures ev.NoButtonEvent? ==> r == KeyResult(s, NoKey)
  {
    match ev
    case NoButtonEvent => KeyResult(s, NoKey)
    case Click => CheckDisplayOn(c, s, KeyNext, now)
    case LongPress => HandleLongPress(s, KeyEnter, now)
    case DoubleClick => HandleDoubleClick(c, s, KeyPrev, now)
    case TripleClick => HandleTripleClick(c, s, KeySelect, now)
    case QuadrupleClick => HandleQuadrupleClick(c, s, KeySelect, now)
  }

  /** Triple and quadruple clicks never reach a screen; a double click always does; a click does on a lit display. */
  lemma ClickKeys(c: Config, s: TaskState, now: nat)
    ensures ButtonKey(c, s, TripleClick, now).key == NoKey
    ensures ButtonKey(c, s, QuadrupleClick, now).key == NoKey
    ensures ButtonKey(c, s, DoubleClick, now).key == KeyPrev
    ensures s.board.displayOn && !OnScreensaver(c, s.ui) ==> ButtonKey(c, s, Click, now).key == KeyNext
    ensures s.board.hasDisplay && (!s.board.displayOn || OnScreensaver(c, s.ui)) ==>
      ButtonKey(c, s, Click, now).key == NoKey
  {
  }

  /** The button keeps the screens' invariant: at most it takes the screensaver down. */
  lemma ButtonKeyKeepsInv(c: Config, s: TaskState, ev: ButtonEvent, now: nat)
    requires Inv(c, s)
    ensures Inv(c, ButtonKey(c, s, ev, now).state)
  {
  }

  // ---------------------------------------------------------------------------------------
  // Hibernation

  /** The hold phase of `handleHibernation` while the button stays down: arm after 5 s, cancel after 8 s. */
  function HoldArm(c: Config, s: TaskState, now: nat): (r: TaskState)
    ensures r.ui == s.ui
  {
    var held := Elapsed(now, s.hold.pressStart);
    if held >= LONG_PRESS_MILLIS && !s.hold.pending && Elapsed(now, s.timers.uiStartedAt) > HIBERNATE_MIN_UPTIME_MILLIS then
      Log(AutoOffAt(s.(hold := s.hold.(pending := true)), now + AUTO_OFF_MILLIS + HIBERNATE_CANCEL_MILLIS),
          (if s.board.hasDisplay then [HibernationWarningShown] else [])
          + (if c.buzzer then [Melody(HibernateTune)] else []))
    else s
  }

  function HoldCancel(c: Config, s: TaskState, now: nat): (r: TaskState)
    ensures r.ui == s.ui
  {
    if s.hold.pending && Elapsed(now, s.hold.pressStart) >= LONG_PRESS_MILLIS + HIBERNATE_CANCEL_MILLIS then
      var s1 := Log(ClearHold(s), if c.buzzer then [Melody(CancelTune)] else []);
      RefreshAt(ShowAlert(s1, "Power off cancelled", 1500, now), 0)
    else s
  }

  /** The gate of `handleHibernation`: it only acts on the home screen's first page. */
  predicate HibernationGate(u: Screens) {
    u.curr == Home && u.home.page == FIRST
  }

  /** The press and release phases of `handleHibernation`. */
  function PressRelease(s: TaskState, now: nat, pressed: bool): (r: TaskState)
    ensures r.ui == s.ui
  {
    if pressed && !s.hold.wasPressed then s.(hold := s.hold.(pressStart := now, wasPressed := true))
    else if !pressed && s.hold.wasPressed then
      if s.hold.pending then Shutdown(ClearHold(s), false) else ClearHold(s)
    else s
  }

  /** `handleHibernation`, with `isButtonPressed()` as `pressed`. */
  function Hibernation(c: Config, s: TaskState, now: nat, pressed: bool): (r: TaskState)
    ensures r.ui == s.ui
    ensures !HibernationGate(s.ui) ==> r == s
  {
    if !HibernationGate(s.ui) then s
    else
      var s1 := PressRelease(s, now, pressed);
      if pressed && s1.hold.wasPressed then HoldCancel(c, HoldArm(c, s1, now), now) else s1
  }

  /** A press starts the hold clock; it cannot arm hibernation on the tick it starts. */
  lemma HibernationPressStarts(c: Config, s: TaskState, now: nat)
    requires HibernationGate(s.ui) && !s.hold.wasPressed && !s.hold.pending
    ensures Hibernation(c, s, now, true) == s.(hold := Hold(now, true, false))
  {
  }

  /**
   * Held for at least 5 s, with nothing pending and more than 10 s of uptime, hibernation becomes
   * pending and auto-off moves to `now + 13000`; once pending it is not armed again while held,
   * and without the uptime it is not armed at all.
   */
  lemma HibernationArms(c: Config, s: TaskState, now: nat)
    requires HibernationGate(s.ui) && s.hold.wasPressed
    ensures var held := Elapsed(now, s.hold.pressStart);
      var r := Hibernation(c, s, now, true);
      (!s.hold.pending && LONG_PRESS_MILLIS <= held < LONG_PRESS_MILLIS + HIBERNATE_CANCEL_MILLIS
        && Elapsed(now, s.timers.uiStartedAt) > HIBERNATE_MIN_UPTIME_MILLIS ==>
         r.hold.pending && r.timers.autoOff == now + AUTO_OFF_MILLIS + HIBERNATE_CANCEL_MILLIS
         && r.events == s.events + (if s.board.hasDisplay then [HibernationWarningShown] else [])
                                 + (if c.buzzer then [Melody(HibernateTune)] else []))
      && (!s.hold.pending && (held < LONG_PRESS_MILLIS || Elapsed(now, s.timers.uiStartedAt) <= HIBERNATE_MIN_UPTIME_MILLIS) ==>
         r == s)
      && (s.hold.pending && held < LONG_PRESS_MILLIS + HIBERNATE_CANCEL_MILLIS ==> r == s)
  {
  }

  /**
   * Still held 8 s after the press while pending: hibernation is cancelled, the press is
   * forgotten, and "Power off cancelled" shows for 1.5 s.
   */
  lemma HibernationCancels(c: Config, s: TaskState, now: nat)
    requires HibernationGate(s.ui) && s.hold.wasPressed && s.hold.pending
    requires Elapsed(now, s.hold.pressStart) >= LONG_PRESS_MILLIS + HIBERNATE_CANCEL_MILLIS
    ensures var r := Hibernation(c, s, now, true);
      r.hold == Hold(0, false, false)
      && r.alert == Alert("Power off cancelled", now + 1500) && r.timers.nextRefresh == 0
  {
  }

  /** After a cancel the button must be pressed afresh: the next held tick only restarts the clock. */
  lemma CancelNeedsFreshPress(c: Config, s: TaskState, now: nat, later: nat)
    requires HibernationGate(s.ui) && s.hold.wasPressed && s.hold.pending
    requires Elapsed(now, s.hold.pressStart) >= LONG_PRESS_MILLIS + HIBERNATE_CANCEL_MILLIS
    ensures Hibernation(c, Hibernation(c, s, now, true), later, true).hold == Hold(later, true, false)
  {
    HibernationCancels(c, s, now);
  }

  /** A release powers off exactly when hibernation was pending; either way the press is forgotten. */
  lemma HibernationRelease(c: Config, s: TaskState, now: nat)
    requires HibernationGate(s.ui) && s.hold.wasPressed
    ensures var r := Hibernation(c, s, now, false);
      r.hold == Hold(0, false, false)
      && (s.hold.pending ==> r == Shutdown(s.(hold := Hold(0, false, false)), false))
      && (!s.hold.pending ==> r == s.(hold := Hold(0, false, false)))
  {
  }

  // ---------------------------------------------------------------------------------------
  // Input dispatch

  /** The inputs of one `loop` tick: the clock, the button, and what the radio and the mesh answer. */
  datatype TickInput = TickInput(
    now: nat,
    nowSecs: nat,
    pressed: bool,
    button: ButtonEvent,
    serialEnabled: bool,
    advertOk: bool,
    sensorCount: nat,
    recentEmpty: bool,
    battMilliVolts: nat)

  /** One call a screen makes into the UITask. */
  function ApplyCall(c: Config, s: TaskState, call: TaskCall, now: nat): (r: TaskState)
    ensures r.ui == if call.GotoHome? then s.ui.(curr := Home) else s.ui
  {
    match call
    case ShowAlert(text, millis) => ShowAlert(s, text, millis, now)
    case Notify(t) => Notify(c, s, t)
    case EnableSerial => Log(s, [SerialEnabled])
    case DisableSerial => Log(s, [SerialDisabled])
    case SendAdvert => Log(s, [AdvertSent])
    case SavePrefs => Log(s, [PrefsSaved])
    case ToggleGps => ToggleGps(c, s, now)
    case ToggleScreensaver => ToggleScreensaver(s, now)
    case GotoHome => GotoHomeScreen(s)
  }

  /** The calls in the order made. */
  function ApplyCalls(c: Config, s: TaskState, calls: seq<TaskCall>, now: nat): (r: TaskState)
    ensures r.ui == if GotoHome in calls then s.ui.(curr := Home) else s.ui
    decreases |calls|
  {
    if calls == [] then s
    else
      var init := calls[..|calls| - 1];
      assert calls == init + [calls[|calls| - 1]];
      ApplyCall(c, ApplyCalls(c, s, init, now), calls[|calls| - 1], now)
  }

  /** The UITask's part of the home screen's `handleInput`: the new page state and the dimmed flag. */
  function HomeKey(c: Config, s: TaskState, h: HomeInputResult): (r: TaskState)
    ensures r.ui == s.ui.(home := h.view)
  {
    s.(ui := s.ui.(home := h.view),
       prefs := s.prefs.(screensaverDimmed := s.prefs.screensaverDimmed != h.toggleDimmed))
  }

  /** `curr->handleInput(c)` for the current screen; the splash screen ignores keys. */
  function Dispatch(c: Config, s: TaskState, k: Key, tick: TickInput): (r: TaskState)
    requires Inv(c, s)
    ensures Inv(c, r)
  {
    match s.ui.curr
    case Home =>
      var h := HomeInput(c.Layout(), s.ui.home, k, s.board.displayOn, tick.serialEnabled, tick.advertOk);
      ApplyCalls(c, HomeKey(c, s, h), h.calls, tick.now)
    case Preview =>
      var p := PreviewInput(s.ui.preview, k);
      ApplyCalls(c, s.(ui := s.ui.(preview := p.view)), p.calls, tick.now)
    case _ => s
  }

  /** A key that reaches a screen restarts the auto-off period and asks for a refresh. */
  function InputStep(c: Config, s: TaskState, k: Key, tick: TickInput): (r: TaskState)
    requires Inv(c, s)
    ensures Inv(c, r)
    ensures k != NoKey ==> r.timers.autoOff == tick.now + AUTO_OFF_MILLIS && r.timers.nextRefresh == SOON
    ensures k == NoKey ==> r == s
  {
    if k != NoKey then
      RefreshAt(AutoOffAt(Dispatch(c, s, k, tick), tick.now + AUTO_OFF_MILLIS), SOON)
    else s
  }

  /** `curr->poll()`: only the splash screen polls, going home once its time is up. */
  function Poll(s: TaskState, now: nat): (r: TaskState)
    ensures s.ui.curr == Splash && now >= s.ui.splashDismiss ==> r == GotoHomeScreen(s)
    ensures !(s.ui.curr == Splash && now >= s.ui.splashDismiss) ==> r == s
  {
    if s.ui.curr == Splash && now >= s.ui.splashDismiss then GotoHomeScreen(s) else s
  }

  // ---------------------------------------------------------------------------------------
  // Rendering and auto-off

  /** What `curr->render` returns, and the home screen's new state. */
  datatype Rendered = Rendered(home: HomeView, delay: nat)

  function RenderScreen(c: Config, u: Screens, tick: TickInput): (r: Rendered)
    requires HomeInv(c.Layout(), u.home)
    ensures HomeInv(c.Layout(), r.home)
    ensures u.curr != Home ==> r == Rendered(u.home, 1000)
  {
    if u.curr == Home then
      var h := HomeRender(c.Layout(), u.home, tick.now, tick.sensorCount, tick.recentEmpty);
      Rendered(h.view, h.delay)
    else Rendered(u.home, 1000)
  }

  /** Render when the lit display is due, then schedule: at the alert's end while one shows, else after the delay. */
  function RenderStep(c: Config, s: TaskState, tick: TickInput): (r: TaskState)
    requires Inv(c, s)
    ensures Inv(c, r)
  {
    if s.board.hasDisplay && s.board.displayOn && tick.now >= s.timers.nextRefresh then
      var rendered := RenderScreen(c, s.ui, tick);
      RefreshAt(s.(ui := s.ui.(home := rendered.home)),
                if tick.now < s.alert.expiry then s.alert.expiry else tick.now + rendered.delay)
    else s
  }

  lemma RenderSchedule(c: Config, s: TaskState, tick: TickInput)
    requires Inv(c, s)
    ensures var r := RenderStep(c, s, tick);
      (s.board.hasDisplay && s.board.displayOn && tick.now >= s.timers.nextRefresh ==>
         (tick.now < s.alert.expiry ==> r.timers.nextRefresh == s.alert.expiry)
         && (tick.now >= s.alert.expiry ==> r.timers.nextRefresh == tick.now + RenderScreen(c, s.ui, tick).delay)
         && r.timers.nextRefresh > tick.now)
      && (!(s.board.hasDisplay && s.board.displayOn && tick.now >= s.timers.nextRefresh) ==> r == s)
  {
  }

  /** The auto-off decision: past `_auto_off` without a forced backlight, the screensaver on home or a dark display. */
  function AutoOffStep(c: Config, s: TaskState, now: nat): (r: TaskState)
    requires Inv(c, s)
    ensures Inv(c, r)
  {
    if s.board.hasDisplay && s.board.displayOn && now > s.timers.autoOff && !s.modes.forceBacklight then
      if s.modes.screensaverOn && s.ui.curr == Home then
        RefreshAt(s.(ui := s.ui.(home := Activate(c.Layout(), s.ui.home))), 0)
      else DisplayDark(s)
    else s
  }

  lemma AutoOffDecision(c: Config, s: TaskState, now: nat)
    requires Inv(c, s) && s.board.hasDisplay && s.board.displayOn
    ensures var r := AutoOffStep(c, s, now);
      (now > s.timers.autoOff && !s.modes.forceBacklight && s.modes.screensaverOn && s.ui.curr == Home ==>
         r.board.displayOn && r.ui.home.page == c.Layout().Screensaver() && r.timers.nextRefresh == 0)
      && (now > s.timers.autoOff && !s.modes.forceBacklight && !(s.modes.screensaverOn && s.ui.curr == Home) ==>
         r == s.(board := s.board.(displayOn := false)))
      && (now <= s.timers.autoOff || s.modes.forceBacklight ==> r == s)
  {
  }

  /** The automatic shutdown on a low battery, checked every 8 s when configured. */
  function BatteryStep(c: Config, s: TaskState, now: nat, milliVolts: nat): (r: TaskState)
    ensures r.ui == s.ui
  {
    match c.autoShutdownMillivolts
    case None => s
    case Some(threshold) =>
      if now > s.timers.nextBattCheck then
        var s1 := if 0 < milliVolts < threshold then Shutdown(s, false) else s;
        BattCheckAt(s1, now + BATT_CHECK_MILLIS)
      else s
  }

  lemma BatteryShutdown(c: Config, s: TaskState, now: nat, milliVolts: nat)
    requires c.autoShutdownMillivolts.Some? && now > s.timers.nextBattCheck
    ensures var r := BatteryStep(c, s, now, milliVolts);
      r.timers.nextBattCheck == now + BATT_CHECK_MILLIS
      && (0 < milliVolts < c.autoShutdownMillivolts.value ==>
            r == Shutdown(s, false).(timers := s.timers.(nextBattCheck := now + BATT_CHECK_MILLIS)))
      && (!(0 < milliVolts < c.autoShutdownMillivolts.value) ==>
            r == s.(timers := s.timers.(nextBattCheck := now + BATT_CHECK_MILLIS)))
  {
  }

  // ---------------------------------------------------------------------------------------
  // The loop

  /** One call of `loop`. */
  function Loop(c: Config, s: TaskState, tick: TickInput): (r: TaskState)
    requires Inv(c, s)
    ensures Inv(c, r)
  {
    var s1 := Hibernation(c, s, tick.now, tick.pressed);
    if s1.hold.pending then s1 else Housekeeping(c, ButtonInput(c, s1, tick), tick)
  }

  /** The buttons of `loop`, and the key they map to handled by the current screen. */
  function ButtonInput(c: Config, s: TaskState, tick: TickInput): (r: TaskState)
    requires Inv(c, s)
    ensures Inv(c, r)
  {
    ButtonKeyKeepsInv(c, s, tick.button, tick.now);
    var k := ButtonKey(c, s, tick.button, tick.now);
    InputStep(c, k.state, k.key, tick)
  }

  /** The rest of `loop`: the LED, the poll, the render, the auto-off and the battery check, in that order. */
  function Housekeeping(c: Config, s: TaskState, tick: TickInput): (r: TaskState)
    requires Inv(c, s)
    ensures Inv(c, r)
  {
    var s1 := Poll(UserLed(c, s, tick.now), tick.now);
    BatteryStep(c, AutoOffStep(c, RenderStep(c, s1, tick), tick.now), tick.now, tick.battMilliVolts)
  }

  /** While hibernation is pending the tick ends after the button handling: no input, no render, no auto-off. */
  lemma PendingSkipsLoop(c: Config, s: TaskState, tick: TickInput)
    requires Inv(c, s) && Hibernation(c, s, tick.now, tick.pressed).hold.pending
    ensures Loop(c, s, tick) == Hibernation(c, s, tick.now, tick.pressed)
  {
  }

  /**
   * A message that arrives while a power-off is armed switches to the preview screen, where the
   * hibernation handling does not run, so nothing clears the armed flag: every later loop call
   * returns at once and leaves the whole state as it is, until the app reports the messages read.
   */
  lemma NewMsgWhilePendingStalls(c: Config, s: TaskState, pathLen: byte, fromName: seq<byte>, text: seq<byte>,
                                 count: int, now: nat, nowSecs: nat, hasConnection: bool, tick: TickInput)
    requires Inv(c, s) && s.hold.pending && !OnScreensaver(c, s.ui)
    ensures var r := NewMsg(c, s, pathLen, fromName, text, count, now, nowSecs, hasConnection);
      Inv(c, r) && r.ui.curr == Preview && r.hold.pending && Loop(c, r, tick) == r
  {
    NewMsgShowsPreview(c, s, pathLen, fromName, text, count, now, nowSecs, hasConnection);
  }

  /** The preview screen only stays current while something is unread; reading the last message goes home. */
  lemma PreviewLastMessageGoesHome(c: Config, s: TaskState, tick: TickInput)
    requires Inv(c, s) && s.ui.curr == Preview && s.ui.preview.numUnread == 1
    ensures var r := InputStep(c, s, KeyNext, tick);
      r.ui.curr == Home && r.ui.preview.numUnread == 0
  {
  }
}
