/**
 * The companion radio's home screen (examples/companion_radio/ui-new/UITask.cpp, class HomeScreen)
 * and the objects it shares with the UITask: the key codes, the preferences record, the sensor
 * settings list, the splash screen, and the calls a screen makes into the UITask.
 *
 * A screen that calls back into the UITask (`_task->showAlert`, `_task->toggleGPS`, …) returns
 * those calls, in order, as a list of TaskCall values; the UITask carries them out.
 */
module CompanionScreens {
  import opened Common
  import Decimal
  import Labels
  import Text
  import Display

  /** The key codes a screen receives; `NoKey` is the 0 that means "no key". */
  datatype Key = NoKey | KeyEnter | KeyLeft | KeyRight | KeyNext | KeyPrev | KeySelect

  /** `UIEventType`, the argument of `notify`. */
  datatype UIEventType = NoEvent | ContactMessage | ChannelMessage | RoomMessage | NewContactMessage | Ack

  /** A call a screen makes into the UITask or the mesh while it handles a key. */
  datatype TaskCall =
    | ShowAlert(text: string, millis: nat)
    | Notify(event: UIEventType)
    | EnableSerial
    | DisableSerial
    | SendAdvert
    | SavePrefs
    | ToggleGps
    | ToggleScreensaver
    | GotoHome

  /** The number of rows of the recent-adverts list and of the sensors page (`UI_RECENT_LIST_SIZE`). */
  const UI_RECENT_LIST_SIZE: nat := 4

  // ---------------------------------------------------------------------------------------
  // Preferences

  /** The fields of `NodePrefs` the UI reads and writes. */
  datatype Prefs = Prefs(screensaverEnabled: bool, screensaverDimmed: bool, gpsEnabled: bool,
                         gpsInterval: nat, buzzerQuiet: bool)

  /** `NodePrefs`, one record the UITask and the home screen both hold a pointer to. */
  class NodePrefs {
    var screensaverEnabled: bool
    var screensaverDimmed: bool
    var gpsEnabled: bool
    var gpsInterval: nat
    var buzzerQuiet: bool

    constructor (p: Prefs)
      ensures View() == p
    {
      screensaverEnabled, screensaverDimmed := p.screensaverEnabled, p.screensaverDimmed;
      gpsEnabled, gpsInterval, buzzerQuiet := p.gpsEnabled, p.gpsInterval, p.buzzerQuiet;
    }

    function View(): Prefs
      reads this
    {
      Prefs(screensaverEnabled, screensaverDimmed, gpsEnabled, gpsInterval, buzzerQuiet)
    }
  }

  // ---------------------------------------------------------------------------------------
  // Sensor settings

  /** One named setting of the sensor manager, as the strings `getSettingName` / `getSettingValue` return. */
  datatype Setting = Setting(name: string, value: string)

  /** The index of the first setting called `name`, the one a front-to-back `strcmp` search stops at. */
  function FindSetting(settings: seq<Setting>, name: string): (r: Option<nat>)
    ensures r.Some? ==> r.value < |settings| && settings[r.value].name == name
    ensures r.Some? ==> forall k :: 0 <= k < r.value ==> settings[k].name != name
    ensures r.None? ==> forall k :: 0 <= k < |settings| ==> settings[k].name != name
  {
    if settings == [] then None
    else if settings[0].name == name then Some(0)
    else match FindSetting(settings[1..], name)
      case None => None
      case Some(i) => Some(i + 1)
  }

  /**
   * `setSettingValue(name, value)`: the first setting called `name` gets the new value; without one
   * nothing changes. The sensor manager is not part of this model; this is the behaviour assumed.
   */
  function SetSetting(settings: seq<Setting>, name: string, value: string): (r: seq<Setting>)
    ensures |r| == |settings|
    ensures FindSetting(settings, name).None? ==> r == settings
    ensures FindSetting(settings, name).Some? ==>
      r == settings[FindSetting(settings, name).value := Setting(name, value)]
  {
    match FindSetting(settings, name)
    case None => settings
    case Some(i) => settings[i := Setting(name, value)]
  }

  /** The search stops at the first setting with the name. */
  lemma {:induction false} FindFirst(settings: seq<Setting>, name: string, i: nat)
    requires i < |settings| && settings[i].name == name
    requires forall k :: 0 <= k < i ==> settings[k].name != name
    ensures FindSetting(settings, name) == Some(i)
  {
    if i > 0 {
      assert settings[0].name != name;
      FindFirst(settings[1..], name, i - 1);
    }
  }

  /** Setting a value does not move the setting: the search finds the same index afterwards. */
  lemma FindAfterSet(settings: seq<Setting>, name: string, value: string)
    ensures FindSetting(SetSetting(settings, name, value), name) == FindSetting(settings, name)
  {
    var r := SetSetting(settings, name, value);
    match FindSetting(settings, name)
    case None =>
    case Some(i) =>
      FindFirst(r, name, i);
  }

  /** The sensor manager's list of settings, which `toggleGPS` and `begin` change. */
  class SensorManager {
    var settings: seq<Setting>

    constructor (settings: seq<Setting>)
      ensures this.settings == settings
    {
      this.settings := settings;
    }

    method SetSettingValue(name: string, value: string)
      modifies this
      ensures settings == SetSetting(old(settings), name, value)
    {
      settings := SetSetting(settings, name, value);
    }
  }

  // ---------------------------------------------------------------------------------------
  // Splash screen

  /** `BOOT_SCREEN_MILLIS` of the companion build. */
  const BOOT_SCREEN_MILLIS: nat := 3000

  /** The splash screen: the trimmed version and the time it gives way to the home screen. */
  class SplashScreen {
    const version: string
    const dismissAfter: nat

    constructor (firmwareVersion: string, now: nat)
      ensures version == Labels.SplashVersion(firmwareVersion)
      ensures dismissAfter == now + BOOT_SCREEN_MILLIS
    {
      version := Labels.SplashVersion(firmwareVersion);
      dismissAfter := now + BOOT_SCREEN_MILLIS;
    }

    /** `poll`: true when it is time to call `gotoHomeScreen`. */
    function Dismissed(now: nat): (goHome: bool)
      reads this
      ensures goHome <==> now >= dismissAfter
    {
      now >= dismissAfter
    }
  }

  // ---------------------------------------------------------------------------------------
  // Home screen pages

  /**
   * The compile-time page list `HomePage`: FIRST, RECENT, RADIO, then GPS when
   * `ENV_INCLUDE_GPS == 1` and SENSORS when `UI_SENSORS_PAGE == 1`, then TIME; `Count` follows,
   * and SCREENSAVER is the value after `Count`.
   */
  datatype Layout = Layout(gps: bool, sensors: bool) {
    function Count(): (n: nat)
      ensures 4 <= n <= 6
    {
      4 + (if gps then 1 else 0) + (if sensors then 1 else 0)
    }

    function Time(): nat {
      Count() - 1
    }

    function Screensaver(): nat {
      Count() + 1
    }

    predicate IsGps(p: int) {
      gps && p == 3
    }

    predicate IsSensors(p: int) {
      sensors && p == 3 + (if gps then 1 else 0)
    }
  }

  const FIRST: nat := 0
  const RECENT: nat := 1
  const RADIO: nat := 2

  /** Every page has exactly one role, so the `handleInput` branches never overlap. */
  lemma PagesDistinct(l: Layout, p: int)
    requires 0 <= p < l.Count()
    ensures One(p == FIRST) + One(p == RECENT) + One(p == RADIO) + One(l.IsGps(p))
          + One(l.IsSensors(p)) + One(p == l.Time()) == 1
  {
  }

  function One(b: bool): nat {
    if b then 1 else 0
  }

  /** The home screen's own state. */
  datatype HomeView = HomeView(
    page: int,
    before: int,            // _page_before_screensaver
    showVolt: bool,
    sensorsNb: int,
    sensorsScroll: bool,
    scrollOffset: int,
    nextSensorsRefresh: int)

  /**
   * What the home screen keeps true: the page is a real page or the screensaver, the page saved
   * for the screensaver is a real page, and the sensors scroll offset is in range.
   */
  predicate HomeInv(l: Layout, v: HomeView) {
    (0 <= v.page < l.Count() || v.page == l.Screensaver())
    && 0 <= v.before < l.Count()
    && 0 <= v.scrollOffset && (v.scrollOffset == 0 || v.scrollOffset < v.sensorsNb)
    && (v.sensorsScroll ==> v.sensorsNb > UI_RECENT_LIST_SIZE)
  }

  /** `activateScreensaver`: remember the page unless already on the screensaver, then show it. */
  function Activate(l: Layout, v: HomeView): (r: HomeView)
    ensures r.page == l.Screensaver()
    ensures HomeInv(l, v) ==> HomeInv(l, r)
  {
    v.(page := l.Screensaver(), before := if v.page != l.Screensaver() then v.page else v.before)
  }

  /** `deactivateScreensaver`: back to the remembered page. */
  function Deactivate(v: HomeView): (r: HomeView)
    ensures r == v.(page := v.before)
  {
    v.(page := v.before)
  }

  /** Activating once or twice and then deactivating returns to the page shown before. */
  lemma ScreensaverRestores(l: Layout, v: HomeView)
    requires HomeInv(l, v) && v.page != l.Screensaver()
    ensures Deactivate(Activate(l, v)).page == v.page
    ensures Deactivate(Activate(l, Activate(l, v))).page == v.page
  {
  }

  /** The saved page is never the screensaver, whatever sequence of activations came first. */
  lemma SavedPageNeverScreensaver(l: Layout, v: HomeView)
    requires HomeInv(l, v)
    ensures Activate(l, v).before != l.Screensaver()
    ensures Activate(l, v).before < l.Count()
  {
  }

  /** The result of `handleInput`: the new state, whether `screensaver_dimmed` flips, the return value, the calls made. */
  datatype HomeInputResult = HomeInputResult(view: HomeView, toggleDimmed: bool, handled: bool, calls: seq<TaskCall>)

  /** `HomeScreen::handleInput(c)`; `displayOn` is `display.isOn()`, the other two what the mesh answers. */
  function HomeInput(l: Layout, v: HomeView, c: Key, displayOn: bool, serialEnabled: bool, advertOk: bool)
    : (r: HomeInputResult)
    ensures HomeInv(l, v) ==> HomeInv(l, r.view)
    ensures !r.handled ==> r == HomeInputResult(v, false, false, [])
  {
    var enterOn := c == KeyEnter && displayOn;
    if enterOn && v.page == FIRST then
      HomeInputResult(v.(showVolt := !v.showVolt), false, true, [])
    else if v.page == l.Screensaver() then
      if c == KeyEnter then HomeInputResult(v, true, true, [SavePrefs])
      else HomeInputResult(v.(page := v.before), false, true, [])
    else if c == KeyLeft || c == KeyPrev then
      HomeInputResult(v.(page := (v.page + l.Count() - 1) % l.Count()), false, true, [])
    else if c == KeyNext || c == KeyRight then
      var p := (v.page + 1) % l.Count();
      HomeInputResult(v.(page := p), false, true,
                      if p == RECENT then [ShowAlert("Send: long press", 1000)] else [])
    else if enterOn then EnterInput(l, v, serialEnabled, advertOk)
    else HomeInputResult(v, false, false, [])
  }

  /** ENTER on a page other than FIRST while the display is on: the page's own action. */
  function EnterInput(l: Layout, v: HomeView, serialEnabled: bool, advertOk: bool): (r: HomeInputResult)
    ensures HomeInv(l, v) ==> HomeInv(l, r.view)
    ensures !r.toggleDimmed
    ensures !r.handled ==> r == HomeInputResult(v, false, false, [])
  {
    if v.page == RADIO then
      HomeInputResult(v, false, true,
                      if serialEnabled then [DisableSerial, ShowAlert("Bluetooth OFF", 1000)]
                      else [EnableSerial, ShowAlert("Bluetooth ON", 1000)])
    else if v.page == RECENT then
      HomeInputResult(v, false, true,
                      [Notify(Ack), SendAdvert, ShowAlert(if advertOk then "Advert sent!" else "Advert failed..", 1000)])
    else if l.IsGps(v.page) then
      HomeInputResult(v, false, true, [ToggleGps])
    else if l.IsSensors(v.page) then
      HomeInputResult(v.(nextSensorsRefresh := 0), false, true, [ToggleGps])
    else if v.page == l.Time() then
      HomeInputResult(v, false, true, [ToggleScreensaver])
    else
      HomeInputResult(v, false, false, [])
  }

  /** A navigation key (not ENTER, so the FIRST-page shortcut cannot apply) on a real page. */
  predicate Navigable(l: Layout, v: HomeView, c: Key) {
    HomeInv(l, v) && v.page != l.Screensaver() && c != KeyEnter
  }

  /** LEFT and PREV step back one page modulo `Count`: from the first page to the last. */
  lemma PageBack(l: Layout, v: HomeView, c: Key, displayOn: bool, serialEnabled: bool, advertOk: bool)
    requires Navigable(l, v, c) && (c == KeyLeft || c == KeyPrev)
    ensures var r := HomeInput(l, v, c, displayOn, serialEnabled, advertOk);
      r.handled && r.calls == [] && r.view == v.(page := (v.page + l.Count() - 1) % l.Count())
      && (v.page == 0 ==> r.view.page == l.Count() - 1)
      && (v.page > 0 ==> r.view.page == v.page - 1)
  {
  }

  /**
   * NEXT and RIGHT step forward one page modulo `Count`: from the last page to the first, and the
   * "Send: long press" alert for one second is asked for exactly when the new page is RECENT.
   */
  lemma PageForward(l: Layout, v: HomeView, c: Key, displayOn: bool, serialEnabled: bool, advertOk: bool)
    requires Navigable(l, v, c) && (c == KeyNext || c == KeyRight)
    ensures var r := HomeInput(l, v, c, displayOn, serialEnabled, advertOk);
      r.handled && r.view == v.(page := (v.page + 1) % l.Count())
      && (v.page == l.Count() - 1 ==> r.view.page == 0)
      && (v.page < l.Count() - 1 ==> r.view.page == v.page + 1)
      && (r.calls == [ShowAlert("Send: long press", 1000)] <==> r.view.page == RECENT)
      && (r.view.page != RECENT ==> r.calls == [])
  {
  }

  /** `x % n` for a page number plus a step of less than one round, `n` being a page count. */
  lemma PageMod(x: int, n: nat)
    requires 4 <= n <= 6 && 0 <= x < 2 * n
    ensures x % n == if x < n then x else x - n
  {
    if n == 4 {
    } else if n == 5 {
    } else {
    }
  }

  /** One step back and one step forward, in either order, return to the same page. */
  lemma BackForwardInverse(l: Layout, v: HomeView, displayOn: bool, serialEnabled: bool, advertOk: bool)
    requires Navigable(l, v, KeyLeft)
    ensures var back := HomeInput(l, v, KeyLeft, displayOn, serialEnabled, advertOk).view;
      HomeInput(l, back, KeyRight, displayOn, serialEnabled, advertOk).view.page == v.page
    ensures var fwd := HomeInput(l, v, KeyRight, displayOn, serialEnabled, advertOk).view;
      HomeInput(l, fwd, KeyLeft, displayOn, serialEnabled, advertOk).view.page == v.page
  {
    var back := HomeInput(l, v, KeyLeft, displayOn, serialEnabled, advertOk).view;
    var fwd := HomeInput(l, v, KeyRight, displayOn, serialEnabled, advertOk).view;
    PageBack(l, v, KeyLeft, displayOn, serialEnabled, advertOk);
    PageForward(l, v, KeyRight, displayOn, serialEnabled, advertOk);
    PageForward(l, back, KeyRight, displayOn, serialEnabled, advertOk);
    PageBack(l, fwd, KeyLeft, displayOn, serialEnabled, advertOk);
    var n := l.Count();
    var b := (v.page + n - 1) % n;
    PageMod(v.page + n - 1, n);
    PageMod(b + 1, n);
    var f := (v.page + 1) % n;
    PageMod(v.page + 1, n);
    PageMod(f + n - 1, n);
  }

  /**
   * On the screensaver ENTER flips `screensaver_dimmed`, saves the preferences and stays; any
   * other key returns to the saved page. Either way the key is consumed.
   */
  lemma ScreensaverKeys(l: Layout, v: HomeView, c: Key, displayOn: bool, serialEnabled: bool, advertOk: bool)
    requires HomeInv(l, v) && v.page == l.Screensaver()
    ensures var r := HomeInput(l, v, c, displayOn, serialEnabled, advertOk);
      r.handled
      && (c == KeyEnter ==> r.view == v && r.toggleDimmed && r.calls == [SavePrefs])
      && (c != KeyEnter ==> r.view == Deactivate(v) && !r.toggleDimmed && r.calls == [])
  {
  }

  /** ENTER on the TIME page toggles the screensaver setting, and only while the display is on. */
  lemma TimePageEnter(l: Layout, v: HomeView, displayOn: bool, serialEnabled: bool, advertOk: bool)
    requires HomeInv(l, v) && v.page == l.Time()
    ensures var r := HomeInput(l, v, KeyEnter, displayOn, serialEnabled, advertOk);
      (displayOn ==> r.handled && r.calls == [ToggleScreensaver] && r.view == v)
      && (!displayOn ==> !r.handled && r.calls == [])
  {
  }

  /** ENTER on the RADIO page switches the serial interface to the other state and says which. */
  lemma RadioPageEnter(l: Layout, v: HomeView, serialEnabled: bool, advertOk: bool)
    requires HomeInv(l, v) && v.page == RADIO
    ensures var r := HomeInput(l, v, KeyEnter, true, serialEnabled, advertOk);
      r.handled && r.view == v
      && (serialEnabled ==> r.calls == [DisableSerial, ShowAlert("Bluetooth OFF", 1000)])
      && (!serialEnabled ==> r.calls == [EnableSerial, ShowAlert("Bluetooth ON", 1000)])
  {
  }

  // ---------------------------------------------------------------------------------------
  // Home screen rendering: delays, sensors scroll, recent adverts

  /** `next_sensors_refresh` advances by this much while auto-off is enabled. */
  const SENSORS_REFRESH_MILLIS: nat := 5000

  /** `refresh_sensors`: re-count the sensor records when their refresh time has passed. */
  function RefreshSensors(v: HomeView, now: nat, sensorCount: nat): (r: HomeView)
    ensures now > v.nextSensorsRefresh ==>
      r == v.(sensorsNb := sensorCount, sensorsScroll := sensorCount > UI_RECENT_LIST_SIZE,
              nextSensorsRefresh := now + SENSORS_REFRESH_MILLIS)
    ensures now <= v.nextSensorsRefresh ==> r == v
  {
    if now > v.nextSensorsRefresh then
      v.(sensorsNb := sensorCount, sensorsScroll := sensorCount > UI_RECENT_LIST_SIZE,
         nextSensorsRefresh := now + SENSORS_REFRESH_MILLIS)
    else v
  }

  /** The scroll step at the end of the sensors page: round-robin over the records while scrolling. */
  function ScrollStep(v: HomeView): (r: HomeView)
    requires v.sensorsScroll ==> v.sensorsNb > 0
    ensures r == v.(scrollOffset := r.scrollOffset)
    ensures v.sensorsScroll ==> 0 <= r.scrollOffset < v.sensorsNb
    ensures !v.sensorsScroll ==> r.scrollOffset == 0
  {
    v.(scrollOffset := if v.sensorsScroll then (v.scrollOffset + 1) % v.sensorsNb else 0)
  }

  /** The result of `HomeScreen::render`: the new state and the delay it asks for before the next render. */
  datatype HomeRenderResult = HomeRenderResult(view: HomeView, delay: nat)

  function HomeRender(l: Layout, v: HomeView, now: nat, sensorCount: nat, recentEmpty: bool): (r: HomeRenderResult)
    requires HomeInv(l, v)
    ensures HomeInv(l, r.view)
    ensures r.delay == 1000 || r.delay == 5000
    ensures v.page == l.Screensaver() ==> r == HomeRenderResult(v, 1000)
    ensures v.page != l.Screensaver() ==> (r.delay == 1000 <==> v.page == RECENT && recentEmpty)
    ensures !l.IsSensors(v.page) ==> r.view == v
  {
    if v.page == l.Screensaver() then HomeRenderResult(v, 1000)
    else if v.page == RECENT && recentEmpty then HomeRenderResult(v, 1000)
    else if l.IsSensors(v.page) then HomeRenderResult(ScrollStep(RefreshSensors(v, now, sensorCount)), 5000)
    else HomeRenderResult(v, 5000)
  }

  /** `k` scroll steps over `nb` records, one per render of the sensors page. */
  function ScrollAfter(offset: nat, nb: nat, k: nat): nat
    requires nb > 0
  {
    if k == 0 then offset else (ScrollAfter(offset, nb, k - 1) + 1) % nb
  }

  /** One more step after `m` steps' worth of wrapping is the same as wrapping `m + 1`. */
  lemma ModSucc(m: nat, nb: nat)
    requires nb > 0
    ensures (m % nb + 1) % nb == (m + 1) % nb
  {
    var q, r := m / nb, m % nb;
    assert m == nb * q + r;
    if r + 1 < nb {
      DivModUnique(r + 1, nb, 0, r + 1);
      DivModUnique(m + 1, nb, q, r + 1);
    } else {
      DivModUnique(r + 1, nb, 1, 0);
      assert m + 1 == nb * (q + 1);
      DivModUnique(m + 1, nb, q + 1, 0);
    }
  }

  /** The offset advances by one record per render and wraps, so `nb` renders show every record as first once. */
  lemma {:induction false} ScrollRoundRobin(offset: nat, nb: nat, k: nat)
    requires 0 <= offset < nb
    ensures ScrollAfter(offset, nb, k) == (offset + k) % nb
    ensures k == nb ==> ScrollAfter(offset, nb, k) == offset
  {
    if k == 0 {
      DivModUnique(offset, nb, 0, offset);
    } else {
      ScrollRoundRobin(offset, nb, k - 1);
      ModSucc(offset + k - 1, nb);
    }
    if k == nb {
      DivModUnique(offset + nb, nb, 1, offset);
    }
  }

  /**
   * A render of the sensors page asks for the next one after 5000 ms. When the refresh time has
   * passed it first re-counts the records (and schedules the next refresh), then scrolls over the
   * new count; otherwise it scrolls by one step over the count it has. Without scrolling the offset
   * is reset to the first record.
   */
  lemma SensorsRenderScrolls(l: Layout, v: HomeView, now: nat, sensorCount: nat, recentEmpty: bool)
    requires HomeInv(l, v) && l.IsSensors(v.page)
    ensures HomeRender(l, v, now, sensorCount, recentEmpty).delay == 5000
    ensures now > v.nextSensorsRefresh ==>
      (HomeRender(l, v, now, sensorCount, recentEmpty).view
         == v.(sensorsNb := sensorCount, sensorsScroll := sensorCount > UI_RECENT_LIST_SIZE,
               nextSensorsRefresh := now + SENSORS_REFRESH_MILLIS,
               scrollOffset := if sensorCount > UI_RECENT_LIST_SIZE then ScrollAfter(v.scrollOffset, sensorCount, 1) else 0))
    ensures now <= v.nextSensorsRefresh ==>
      (HomeRender(l, v, now, sensorCount, recentEmpty).view
         == v.(scrollOffset := if v.sensorsScroll then ScrollAfter(v.scrollOffset, v.sensorsNb, 1) else 0))
  {
    PagesDistinct(l, v.page);
  }

  /** An entry of the recently-heard list: the name (empty for an unused slot) and when it was heard. */
  datatype AdvertPath = AdvertPath(name: seq<byte>, recvTimestamp: nat)

  /** `sizeof(AdvertPath::name)`, and so the size of the buffer a name is transliterated into. */
  const NAME_SIZE: nat := 32

  /**
   * One line of the RECENT page: the slot it shows, the name as drawn, and how many seconds ago
   * the advert was heard.
   */
  datatype RecentRow = RecentRow(slot: nat, text: seq<byte>, secs: int)
  {
    /** The line's y position: 20 px down, then 11 px per slot, empty slots included. */
    function y(): int { 20 + 11 * slot }

    /** The age label drawn at the right of the line. */
    function age(): string { Labels.AgeLabel(secs) }
  }

  /**
   * The name as the RECENT page draws it: transliterated into a 32-byte buffer, then ellipsized to
   * the width left of the age label and its 1 px gap.
   */
  function RecentName(name: seq<byte>, secs: int, d: Display.TextSurface): seq<byte> {
    var maxNameWidth := d.width - d.textWidth(Text.Ascii(Labels.AgeLabel(secs))) - 1;
    Display.Ellipsized(Display.Blocks(name, NAME_SIZE, d.ru), maxNameWidth, d.textWidth)
  }

  /** A short printable ASCII name that fits left of the age label is drawn exactly as stored. */
  lemma RecentNameWhole(name: seq<byte>, secs: int, d: Display.TextSurface)
    requires |name| < NAME_SIZE && forall k :: 0 <= k < |name| ==> Display.Printable(name[k])
    requires d.textWidth(name) <= d.width - d.textWidth(Text.Ascii(Labels.AgeLabel(secs))) - 1
    ensures RecentName(name, secs, d) == name
  {
    Display.BlocksPrintable(name, NAME_SIZE, d.ru);
    assert Display.Clip(name) == name;
  }

  /**
   * A name too wide for its line is drawn as a prefix of its transliteration followed by the
   * ellipsis, and the whole line stays inside the 256-byte buffer.
   */
  lemma RecentNameShortened(name: seq<byte>, secs: int, d: Display.TextSurface)
    requires d.textWidth(Display.Blocks(name, NAME_SIZE, d.ru))
           > d.width - d.textWidth(Text.Ascii(Labels.AgeLabel(secs))) - 1
    ensures var t := Display.Blocks(name, NAME_SIZE, d.ru);
      var e := Display.Ellipsis(d.textWidth);
      var r := RecentName(name, secs, d);
      |e| <= |r| <= |t| + |e| && r == t[..|r| - |e|] + e
  {
    var t := Display.Blocks(name, NAME_SIZE, d.ru);
    assert Display.Clip(t) == t;
  }

  /** The line a used slot gets: its slot, its name as drawn, and the age of its advert. */
  function RecentLine(a: AdvertPath, slot: nat, nowSecs: nat, d: Display.TextSurface): (row: RecentRow)
    ensures row.slot == slot
  {
    var secs := Labels.AgeSeconds(nowSecs, a.recvTimestamp);
    RecentRow(slot, RecentName(a.name, secs, d), secs)
  }

  /** The line each slot would get, used or not. */
  function Lines(recent: seq<AdvertPath>, nowSecs: nat, d: Display.TextSurface): (lines: seq<RecentRow>)
    ensures |lines| == |recent|
    ensures forall k :: 0 <= k < |recent| ==> lines[k] == RecentLine(recent[k], k, nowSecs, d) && lines[k].slot == k
  {
    seq(|recent|, k requires 0 <= k < |recent| => RecentLine(recent[k], k, nowSecs, d))
  }

  /** Each line of `lines` is for the slot at its own index. */
  predicate SlotIndexed(lines: seq<RecentRow>) {
    forall k :: 0 <= k < |lines| ==> lines[k].slot == k
  }

  /** The lines the RECENT page draws for slots `0..n-1`: empty slots are skipped but keep their line. */
  function RowsUpTo(recent: seq<AdvertPath>, lines: seq<RecentRow>, n: nat): seq<RecentRow>
    requires n <= |recent| == |lines|
  {
    if n == 0 then []
    else RowsUpTo(recent, lines, n - 1) + (if recent[n - 1].name == [] then [] else [lines[n - 1]])
  }

  /** What the RECENT page draws: one line per used slot. */
  function RecentPage(recent: seq<AdvertPath>, nowSecs: nat, d: Display.TextSurface): seq<RecentRow> {
    RowsUpTo(recent, Lines(recent, nowSecs, d), |recent|)
  }

  /** Every used slot below `n` has its line. */
  lemma {:induction false} RowsCoverSlots(recent: seq<AdvertPath>, lines: seq<RecentRow>, n: nat)
    requires n <= |recent| == |lines|
    ensures forall k :: 0 <= k < n && recent[k].name != [] ==> lines[k] in RowsUpTo(recent, lines, n)
  {
    if n > 0 {
      RowsCoverSlots(recent, lines, n - 1);
    }
  }

  /** Every line drawn belongs to a used slot below `n`, and is that slot's line. */
  lemma {:induction false} RowsOnlySlots(recent: seq<AdvertPath>, lines: seq<RecentRow>, n: nat)
    requires n <= |recent| == |lines| && SlotIndexed(lines)
    ensures forall row :: row in RowsUpTo(recent, lines, n) ==>
      row.slot < n && recent[row.slot].name != [] && row == lines[row.slot]
  {
    if n > 0 {
      RowsOnlySlots(recent, lines, n - 1);
    }
  }

  lemma {:induction false} RowSlotsBelow(recent: seq<AdvertPath>, lines: seq<RecentRow>, n: nat)
    requires n <= |recent| == |lines| && SlotIndexed(lines)
    ensures forall a :: 0 <= a < |RowsUpTo(recent, lines, n)| ==> RowsUpTo(recent, lines, n)[a].slot < n
  {
    if n > 0 {
      RowSlotsBelow(recent, lines, n - 1);
    }
  }

  /** Lines keep the order of their slots, one per slot at most. */
  lemma {:induction false} RowsAscend(recent: seq<AdvertPath>, lines: seq<RecentRow>, n: nat)
    requires n <= |recent| == |lines| && SlotIndexed(lines)
    ensures forall a, b :: 0 <= a < b < |RowsUpTo(recent, lines, n)| ==>
      RowsUpTo(recent, lines, n)[a].slot < RowsUpTo(recent, lines, n)[b].slot
  {
    if n > 0 {
      RowsAscend(recent, lines, n - 1);
      RowSlotsBelow(recent, lines, n - 1);
      var init := RowsUpTo(recent, lines, n - 1);
      var rows := RowsUpTo(recent, lines, n);
      forall a, b | 0 <= a < b < |rows| ensures rows[a].slot < rows[b].slot {
        assert rows[a] == init[a];
        if b < |init| {
          assert rows[b] == init[b];
        } else {
          assert rows[b] == lines[n - 1];
        }
      }
    }
  }

  /**
   * The RECENT page draws exactly the used slots, in slot order: each with its name transliterated
   * and ellipsized (RecentName) and its age, and nothing for an empty slot.
   */
  lemma RecentPageRows(recent: seq<AdvertPath>, nowSecs: nat, d: Display.TextSurface)
    ensures var rows := RecentPage(recent, nowSecs, d);
      (forall k :: 0 <= k < |recent| && recent[k].name != [] ==> RecentLine(recent[k], k, nowSecs, d) in rows)
      && (forall row :: row in rows ==>
            row.slot < |recent| && recent[row.slot].name != [] && row == RecentLine(recent[row.slot], row.slot, nowSecs, d))
      && (forall a, b :: 0 <= a < b < |rows| ==> rows[a].slot < rows[b].slot)
  {
    var lines := Lines(recent, nowSecs, d);
    RowsCoverSlots(recent, lines, |recent|);
    RowsOnlySlots(recent, lines, |recent|);
    RowsAscend(recent, lines, |recent|);
  }

  /** One pass of the RECENT loop for a used slot: the age label, then the name drawn left of it. */
  method DrawRecentLine(recent: seq<AdvertPath>, slot: nat, nowSecs: nat, d: Display.TextSurface) returns (row: RecentRow)
    requires slot < |recent|
    ensures row == Lines(recent, nowSecs, d)[slot]
  {
    var a := recent[slot];
    var secs := Labels.AgeSeconds(nowSecs, a.recvTimestamp);
    var tsw := d.textWidth(Text.Ascii(Labels.AgeLabel(secs)));
    var filtered := Display.TranslatedText(a.name, NAME_SIZE, d.ru);
    var p := Display.DrawTextEllipsized(0, 20 + 11 * slot, d.width - tsw - 1, filtered, d.textWidth);
    row := RecentRow(slot, p.text, secs);
  }

  lemma RowsStep(recent: seq<AdvertPath>, lines: seq<RecentRow>, i: nat, rows: seq<RecentRow>)
    requires i < |recent| == |lines| && rows == RowsUpTo(recent, lines, i)
    ensures RowsUpTo(recent, lines, i + 1) == if recent[i].name == [] then rows else rows + [lines[i]]
  {
  }

  /** The `for` loop of the RECENT page over `recent[]`: empty slots are skipped. */
  method RecentRows(recent: seq<AdvertPath>, nowSecs: nat, d: Display.TextSurface) returns (rows: seq<RecentRow>)
    ensures rows == RecentPage(recent, nowSecs, d)
  {
    ghost var lines := Lines(recent, nowSecs, d);
    rows := [];
    var i := 0;
    while i < |recent|
      invariant 0 <= i <= |recent|
      invariant rows == RowsUpTo(recent, lines, i)
    {
      RowsStep(recent, lines, i, rows);
      if recent[i].name != [] {
        var row := DrawRecentLine(recent, i, nowSecs, d);
        rows := rows + [row];
      }
      i := i + 1;
    }
  }

  /** The home screen (`HomeScreen`). */
  class HomeScreen {
    const layout: Layout
    const prefs: NodePrefs
    var page: int
    var pageBeforeScreensaver: int
    var showVolt: bool
    var sensorsNb: int
    var sensorsScroll: bool
    var sensorsScrollOffset: int
    var nextSensorsRefresh: int

    function View(): HomeView
      reads this
    {
      HomeView(page, pageBeforeScreensaver, showVolt, sensorsNb, sensorsScroll, sensorsScrollOffset, nextSensorsRefresh)
    }

    ghost predicate Valid()
      reads this
    {
      HomeInv(layout, View())
    }

    /** `_page(0)`, `_page_before_screensaver = FIRST`, the sensors counters at 0. */
    constructor (layout: Layout, prefs: NodePrefs)
      ensures Valid() && this.layout == layout && this.prefs == prefs
      ensures View() == HomeView(FIRST, FIRST, false, 0, false, 0, 0)
    {
      this.layout, this.prefs := layout, prefs;
      page, pageBeforeScreensaver, showVolt := FIRST, FIRST, false;
      sensorsNb, sensorsScroll, sensorsScrollOffset, nextSensorsRefresh := 0, false, 0, 0;
    }

    predicate IsScreensaverActive()
      reads this
    {
      page == layout.Screensaver()
    }

    method ActivateScreensaver()
      requires Valid()
      modifies this
      ensures Valid() && View() == Activate(layout, old(View()))
    {
      if page != layout.Screensaver() {
        pageBeforeScreensaver := page;
      }
      page := layout.Screensaver();
    }

    method DeactivateScreensaver()
      requires Valid()
      modifies this
      ensures Valid() && View() == Deactivate(old(View()))
    {
      page := pageBeforeScreensaver;
    }

    method HandleInput(c: Key, displayOn: bool, serialEnabled: bool, advertOk: bool)
      returns (handled: bool, calls: seq<TaskCall>)
      requires Valid()
      modifies this, prefs
      ensures Valid()
      ensures var r := HomeInput(layout, old(View()), c, displayOn, serialEnabled, advertOk);
        View() == r.view && handled == r.handled && calls == r.calls
        && prefs.View() == old(prefs.View()).(screensaverDimmed := old(prefs.screensaverDimmed) != r.toggleDimmed)
    {
      calls := [];
      if c == KeyEnter && displayOn && page == FIRST {
        showVolt := !showVolt;
        return true, [];
      }
      if page == layout.Screensaver() {
        if c == KeyEnter {
          prefs.screensaverDimmed := !prefs.screensaverDimmed;
          return true, [SavePrefs];
        }
        page := pageBeforeScreensaver;  // go back to the page before the screensaver
        return true, [];
      }
      if c == KeyLeft || c == KeyPrev {
        page := (page + layout.Count() - 1) % layout.Count();
        return true, [];
      }
      if c == KeyNext || c == KeyRight {
        page := (page + 1) % layout.Count();
        if page == RECENT {
          calls := [ShowAlert("Send: long press", 1000)];
        }
        return true, calls;
      }
      if c == KeyEnter && displayOn {
        handled, calls := HandleEnter(serialEnabled, advertOk);
        return;
      }
      return false, [];
    }

    /** The ENTER branches of `handleInput` that depend on the page. */
    method HandleEnter(serialEnabled: bool, advertOk: bool) returns (handled: bool, calls: seq<TaskCall>)
      requires Valid()
      modifies this
      ensures var r := EnterInput(layout, old(View()), serialEnabled, advertOk);
        View() == r.view && handled == r.handled && calls == r.calls
    {
      if page == RADIO {
        if serialEnabled {
          calls := [DisableSerial, ShowAlert("Bluetooth OFF", 1000)];
        } else {
          calls := [EnableSerial, ShowAlert("Bluetooth ON", 1000)];
        }
        return true, calls;
      }
      if page == RECENT {
        calls := [Notify(Ack), SendAdvert, ShowAlert(if advertOk then "Advert sent!" else "Advert failed..", 1000)];
        return true, calls;
      }
      if layout.IsGps(page) {
        return true, [ToggleGps];
      }
      if layout.IsSensors(page) {
        nextSensorsRefresh := 0;
        return true, [ToggleGps];
      }
      if page == layout.Time() {
        return true, [ToggleScreensaver];
      }
      return false, [];
    }

    /**
     * `render`, for what it decides rather than what it draws: the delay until the next render,
     * the sensors page's refresh and scroll, and the lines of the RECENT page.
     */
    method Render(now: nat, nowSecs: nat, sensorCount: nat, recent: seq<AdvertPath>, display: Display.DisplayDriver)
      returns (delay: nat, rows: seq<RecentRow>)
      requires Valid() && |recent| == UI_RECENT_LIST_SIZE
      modifies this
      ensures Valid()
      ensures var r := HomeRender(layout, old(View()), now, sensorCount, recent[0].name == []);
        View() == r.view && delay == r.delay
      ensures rows == if old(page) == RECENT && recent[0].name != []
        then RecentPage(recent, nowSecs, display.Surface()) else []
    {
      rows := [];
      if page == layout.Screensaver() {
        return 1000, [];
      }
      if page == RECENT {
        if recent[0].name == [] {
          return 1000, [];   // "No adverts received"
        }
        rows := RecentRows(recent, nowSecs, display.Surface());
      } else if layout.IsSensors(page) {
        if now > nextSensorsRefresh {
          sensorsNb := sensorCount;
          sensorsScroll := sensorsNb > UI_RECENT_LIST_SIZE;
          nextSensorsRefresh := now + SENSORS_REFRESH_MILLIS;
        }
        if sensorsScroll {
          sensorsScrollOffset := (sensorsScrollOffset + 1) % sensorsNb;
        } else {
          sensorsScrollOffset := 0;
        }
      }
      return 5000, rows;
    }
  }
}
