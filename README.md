# MeshCore display UIs, modelled in Dafny

This project models the on-device user interface of three MeshCore firmwares. It also models the text helpers of the display driver they share.

- **Companion radio, `ui-new`.** The `UITask` owns:
  - a splash screen that is dismissed after three seconds;
  - a home screen with pages: first (messages and battery), recent adverts, radio, optional GPS and sensors pages, and time, plus a screensaver page;
  - a message-preview screen with a ring buffer of 32 unread messages.

  It also handles:
  - button clicks, double/triple/quadruple clicks and long presses;
  - a hold-to-hibernate gesture that a longer hold cancels;
  - the status LED blink cycle;
  - notifications;
  - the GPS, screensaver, backlight and buzzer toggles;
  - display auto-off;
  - low-battery shutdown.
- **Simple repeater.** A boot screen with the trimmed firmware version, then a home screen with a battery gauge. The button wakes the display, and a press held for five seconds powers the board off on release.
- **Simple repeater, `ui-neat`.** The same screens, plus:
  - the companion's hold-to-hibernate gesture;
  - a home line that alternates between the node name and the Wi-Fi IP address when an MQTT bridge is built in;
  - low-battery shutdown.
- **`DisplayDriver` text helpers.**
  - Centred, right-aligned and left-aligned placement.
  - UTF-8 to block-glyph translation: the default build, and the Cyrillic `OLED_RU` build.
  - Ellipsizing of text wider than a limit.

## How the model is built

**Time and the firmware's state**
- The firmware's clock `millis()` is a parameter `now: nat`.
  - Deadlines (`now + AUTO_OFF_MILLIS`) are unbounded naturals.
  - Differences of two readings (`millis() - start`, an `unsigned long`) wrap modulo 2^32 (`Common.Elapsed`).
- Fields that the firmware updates in place are class fields, with `modifies` clauses on the methods that change them. Globals of the repeater files become fields of the repeater's class.
- Each class has a ghost `State()` that collects its fields into a record. Pure step functions over that record state what one call does.
- Each method ensures that its new `State()` is the step function applied to `old(State())`. The lemmas about each step function state what the firmware promises.

**What the model does not compute**
- Drawing is not modelled pixel by pixel. A render returns a `Frame` value, or a next-refresh delay, holding the numbers the screen shows.
- External effects are appended to a ghost `events` log, in the order the firmware performs them. These are:
  - saving preferences;
  - sending an advert;
  - enabling or disabling serial;
  - buzzer melodies;
  - GPS power;
  - entering rescue mode;
  - the hibernation warning;
  - reboot, and radio/board power-off.
- Queries to the rest of the firmware are parameters, or fields of a per-tick input record. These are:
  - button level and events;
  - battery millivolts;
  - the count of sensor channels;
  - the RTC seconds;
  - whether serial is enabled;
  - whether an advert succeeded;
  - Wi-Fi status.

**Bytes, text and glyph widths**
- Text that reaches the firmware from outside (advert names, message senders and texts) is `seq<byte>`: the bytes of the C string, without its terminating NUL. `char` is unsigned, as on the ARM and ESP32 targets.
- Labels the firmware formats itself from literals and numbers (ages, counts, alerts) are Dafny strings of ASCII characters. `Text.Ascii` gives the bytes C stores for them wherever they meet byte text or a width measurement.
- Stored or received text is drawn through `translateUTF8ToBlocks` into a buffer of the firmware's size, so what the model shows is the transliteration cut to that buffer (`Display.Blocks`), not the raw bytes.
- The glyph-width function `getTextWidth` is a parameter `textWidth` of the helpers that measure text.

## Model

| member | source | states |
|---|---|---|
| Common.Elapsed | examples/companion_radio/ui-new/UITask.cpp:1159-1162 | the unsigned 32-bit difference of two `millis()` readings: below 2^32, the true difference within one wrap period, and the wrapped value when the start lies ahead |
| Common.CDiv | examples/simple_repeater/UITask.cpp:99 | C integer division truncates toward zero: equal to Euclidean division for non-negative dividends, minus the quotient of the magnitude otherwise |
| Common.ToInt32 | examples/companion_radio/ui-new/UITask.cpp:305 | reading an unsigned 32-bit value as `int` yields the two's-complement value congruent to it modulo 2^32 |
| Common.WrapInt32 | examples/companion_radio/ui-new/UITask.h:69-70 | an `int` sum such as `cur_time + last_led_increment` takes the 32-bit two's-complement value congruent to it modulo 2^32, and is unchanged when it is representable |
| Text.Ascii | examples/companion_radio/ui-new/UITask.cpp:566-570 | the bytes C stores for a literal or formatted label: one byte per character, equal to its code |
| Decimal.FromNat | examples/companion_radio/ui-new/UITask.cpp:686-688 | `%u` prints a non-empty string of decimal digits with no leading zero except for 0 itself |
| Decimal.FromInt | examples/companion_radio/ui-new/UITask.cpp:307 | `%d` prints a leading '-' exactly for negative numbers, followed by the digits of the magnitude |
| Decimal.ToNatFromNat | examples/companion_radio/ui-new/UITask.cpp:307-311 | the printed digits read back as the printed number |
| Decimal.FromNatInjective | examples/companion_radio/ui-new/UITask.cpp:686-688 | different numbers print as different strings |
| Display.DisplayDriver.constructor | src/helpers/ui/DisplayDriver.h:13-16 | a driver whose `width()` and `height()` report the given size, whose `isOn()` reports the given power state, and whose text surface has the given width, font and build |
| Display.DisplayDriver.TurnOn | src/helpers/ui/DisplayDriver.h:16-17 | after turnOn the display reports itself on |
| Display.DisplayDriver.TurnOff | src/helpers/ui/DisplayDriver.h:16-18 | after turnOff the display reports itself off |
| Display.DrawTextCentered | src/helpers/ui/DisplayDriver.h:32-36 | the cursor is placed half the text width, rounded toward zero, left of the middle |
| Display.DrawTextRightAlign | src/helpers/ui/DisplayDriver.h:37-41 | the text ends exactly at the anchor |
| Display.DrawTextLeftAlign | src/helpers/ui/DisplayDriver.h:42-45 | the text starts exactly at the anchor |
| Display.AlignmentOrder | src/helpers/ui/DisplayDriver.h:32-45 | for one anchor, right-aligned text starts no later than centred text, which starts no later than left-aligned text |
| Display.CyrillicCode | src/helpers/ui/DisplayDriver.h:60-100 | the OLED_RU table: after a 0xD0 lead, bytes 0x90..0xBF map to А..я (byte + 48); after 0xD1, bytes 0x80..0x8F map to р..я (byte + 112); every code emitted is 0xA5 or above |
| Display.TranslateUTF8ToBlocks | src/helpers/ui/DisplayDriver.h:48-117 | writes into `dest` the prefix of the translation that fits in `dest_size - 1` bytes, followed by a NUL, and leaves the rest of `dest` unchanged |
| Display.TranslateByte | src/helpers/ui/DisplayDriver.h:107-113 | in the default build, one source character emits itself when printable and one 0xDB block for any byte from 0x80 up, then skips the continuation bytes after it |
| Display.TranslateByteRu | src/helpers/ui/DisplayDriver.h:55-106 | in the OLED_RU build, one source character emits what the Cyrillic table selects, and remembers or forgets the pending lead byte as the firmware does |
| Display.SkipContinuationBytes | src/helpers/ui/DisplayDriver.h:112-113 | advances past exactly the run of continuation bytes that follows |
| Display.TranslateLength | src/helpers/ui/DisplayDriver.h:48-117 | a translation is never longer than its source |
| Display.TranslateNoNul | src/helpers/ui/DisplayDriver.h:48-117 | a translation never contains a NUL, so the buffer it is written into reads back whole |
| Display.Blocks | src/helpers/ui/DisplayDriver.h:48-117 | the C string a `size`-byte buffer holds after the translation: the translation cut to `size - 1` bytes, with no NUL, and all of it when the source is shorter than the buffer |
| Display.BlocksPrintable | src/helpers/ui/DisplayDriver.h:107-108 | printable ASCII shorter than the buffer comes out of the buffer unchanged |
| Display.Strlen | examples/companion_radio/ui-new/UITask.cpp:600-601 | the length of the C string in a buffer: the index of its first NUL, with no NUL before it |
| Display.TranslatedText | examples/companion_radio/ui-new/UITask.cpp:599-601 | a buffer of the given size filled by `translateUTF8ToBlocks` and read back up to its NUL holds exactly `Blocks` |
| Display.DefaultGlyphsOnly | src/helpers/ui/DisplayDriver.h:107-111 | the default build emits only printable ASCII and 0xDB |
| Display.CyrillicGlyphsOnly | src/helpers/ui/DisplayDriver.h:55-106 | the OLED_RU build emits only printable ASCII and codes of 0xA5 and above: the CP1251 letters and the 0xAE fallback |
| Display.PrintableUnchanged | src/helpers/ui/DisplayDriver.h:107-108 | text made only of printable ASCII translates to itself in both builds |
| Display.MultibyteOneGlyph | src/helpers/ui/DisplayDriver.h:101-113 | any byte from 0x80 up (a lead byte, or a stray continuation byte) and the continuation bytes after it give exactly one glyph: 0xDB in the default build, and 0xAE in the OLED_RU build for a byte that is not a Cyrillic lead |
| Display.CyrillicPair | src/helpers/ui/DisplayDriver.h:57-106 | in the OLED_RU build, a Cyrillic lead byte and the byte after it give the mapped code, or nothing when the table has none |
| Display.ControlEmitsNothing | src/helpers/ui/DisplayDriver.h:53-111 | control characters (below 32, and 127) emit nothing, and in the OLED_RU build they forget a pending lead byte |
| Display.CodePoint | src/helpers/ui/DisplayDriver.h:57-106 | decodes a two-byte UTF-8 sequence to its code point, below U+0800 |
| Display.Cp1251 | src/helpers/ui/DisplayDriver.h:57-106 | an independent Windows-1251 table: the codes of the Russian and Ukrainian letters (U+0410..U+044F and ten others), 0 for any other code point |
| Display.CyrillicCodeIsCp1251 | src/helpers/ui/DisplayDriver.h:57-106 | for every Cyrillic lead byte and continuation byte, the firmware's case-by-case mapping equals the CP1251 code of the decoded code point |
| Display.CyrillicCodeNeedsContinuation | src/helpers/ui/DisplayDriver.h:57-106 | a lead byte followed by a byte that is not a continuation byte maps to nothing |
| Display.Clip | src/helpers/ui/DisplayDriver.h:121-125 | the text is copied into the 256-byte buffer, clipped to 255 bytes |
| Display.Ellipsis | src/helpers/ui/DisplayDriver.h:137-143 | "... " when 'i' and 'l' differ in width (a proportional font), "..." otherwise |
| Display.FitLength | src/helpers/ui/DisplayDriver.h:148-150 | the trim loop stops at the longest prefix that fits within the limit, or at the empty prefix |
| Display.FitLengthUnique | src/helpers/ui/DisplayDriver.h:148-150 | any length satisfying the loop's exit condition, with everything longer too wide, is that length |
| Display.EllipsizedAsWritten | src/helpers/ui/DisplayDriver.h:120-155 | the text as the firmware builds it, with no bound on the buffer it appends to |
| Display.EllipsisOverflowWitness | src/helpers/ui/DisplayDriver.h:148-151 | for 255 copies of "W" in a proportional font (W 7 px, i 2, l 3, '.' 2, space 3) with a 1780 px limit, the loop keeps 253 bytes and the text as written plus its NUL takes 258 bytes, more than the 256-byte buffer |
| Display.Ellipsized | src/helpers/ui/DisplayDriver.h:120-155 | the corrected result, always under 256 bytes: the clipped text when it fits; otherwise the longest prefix that fits the width less the ellipsis and leaves room for it, or nothing, followed by the ellipsis |
| Display.EllipsizedAgrees | src/helpers/ui/DisplayDriver.h:120-155 | the corrected result equals the as-written result whenever the latter fits the buffer |
| Display.DrawTextEllipsized | src/helpers/ui/DisplayDriver.h:120-155 | the copy, trim and append on the 256-byte array print `Ellipsized` at the given position |
| Display.CopyClipped | src/helpers/ui/DisplayDriver.h:121-125 | the 256-byte buffer holds `Clip(str)` and its NUL |
| Display.TrimToFit | src/helpers/ui/DisplayDriver.h:148-150 | the trim loop stops at `FitLength`, started from the longest length that leaves room for the ellipsis, and keeps that prefix |
| Display.AppendEllipsis | src/helpers/ui/DisplayDriver.h:151 | appends the ellipsis after the kept prefix |
| Labels.BatteryPercentage | examples/companion_radio/ui-new/UITask.cpp:121-123 | the percentage is clamped to 0..100: 0 at or below the minimum, 100 at or above the maximum |
| Labels.FillWidth | examples/companion_radio/ui-new/UITask.cpp:137 | the fill is 0..22 pixels for a percentage in 0..100 |
| Labels.BatteryPercentageLinear | examples/simple_repeater/UITask.cpp:98-101 | inside the scale, the percentage is the truncated linear interpolation between the two voltages |
| Labels.BatteryMonotone | examples/simple_repeater/UITask.cpp:98-121 | a higher voltage never shows a lower percentage or a narrower fill |
| Labels.AgeSeconds | examples/companion_radio/ui-new/UITask.cpp:305 | the age is the clock difference; it is negative for a timestamp in the future |
| Labels.AgeOf | examples/companion_radio/ui-new/UITask.cpp:306-312 | seconds below a minute, whole minutes below an hour, whole hours beyond, each rounded down |
| Labels.AgeLabel | examples/companion_radio/ui-new/UITask.cpp:584-591 | the label ends in its unit letter and starts with '-' exactly for a negative age |
| Labels.AgeLabelReadsBack | examples/companion_radio/ui-new/UITask.cpp:305-312 | the digits of a non-negative age's label read back as a count of units that brackets the age |
| Labels.FutureStampLabel | examples/companion_radio/ui-new/UITask.cpp:305-307 | a future timestamp shows as a negative number of seconds |
| Labels.UpToDash | examples/simple_repeater/ui-neat/UITask.cpp:46-51 | the version is cut at its first '-': a dash-free prefix that is all of the version or ends where the first dash was |
| Labels.SplashVersion | examples/companion_radio/ui-new/UITask.cpp:47-53 | the companion splash version is the part before the first dash, bounded by its 12-byte buffer |
| Labels.RepeaterVersionAsWritten | examples/simple_repeater/UITask.cpp:36-45 | the repeater version string as written: the dash-free prefix, with no buffer bound |
| Labels.RepeaterVersionOverflowWitness | examples/simple_repeater/UITask.h:12 | a 40-character dash-free version needs 41 bytes, more than the 32-byte `_version_info` |
| Labels.RepeaterVersion | examples/simple_repeater/UITask.cpp:36-45 | the corrected version string: the dash-free prefix truncated to 31 bytes |
| CompanionScreens.NodePrefs.constructor | examples/companion_radio/ui-new/UITask.cpp:679-690 | the preferences object holds the preferences given |
| CompanionScreens.FindSetting | examples/companion_radio/ui-new/UITask.cpp:1044-1050 | finds the first sensor setting with that name, or none |
| CompanionScreens.SetSetting | examples/companion_radio/ui-new/UITask.cpp:680 | replaces the value of the first setting with that name and nothing else |
| CompanionScreens.FindFirst | examples/companion_radio/ui-new/UITask.cpp:1044-1050 | the index found is the first whose name matches |
| CompanionScreens.FindAfterSet | examples/companion_radio/ui-new/UITask.cpp:1114-1117 | setting a value keeps the index at which its name is found, and that index now holds the new value |
| CompanionScreens.SensorManager.SetSettingValue | examples/companion_radio/ui-new/UITask.cpp:680-688 | the settings become `SetSetting` of the old ones |
| CompanionScreens.SplashScreen.constructor | examples/companion_radio/ui-new/UITask.cpp:44-56 | the splash shows the trimmed version and is dismissed three seconds after it is built |
| CompanionScreens.SplashScreen.Dismissed | examples/companion_radio/ui-new/UITask.cpp:81-85 | poll dismisses the splash once its deadline is reached |
| CompanionScreens.Count | examples/companion_radio/ui-new/UITask.cpp:89-102 | between 4 and 6 home pages: first, recent, radio and time, plus the GPS and sensors pages when built in |
| CompanionScreens.PagesDistinct | examples/companion_radio/ui-new/UITask.cpp:89-102 | each page index below the count is exactly one of first, recent, radio, GPS, sensors and time |
| CompanionScreens.Activate | examples/companion_radio/ui-new/UITask.cpp:194-199 | activating the screensaver shows the screensaver page and keeps the home invariant |
| CompanionScreens.Deactivate | examples/companion_radio/ui-new/UITask.cpp:201-203 | deactivating restores the saved page |
| CompanionScreens.ScreensaverRestores | examples/companion_radio/ui-new/UITask.cpp:194-203 | activating and then deactivating returns to the page that was shown |
| CompanionScreens.SavedPageNeverScreensaver | examples/companion_radio/ui-new/UITask.cpp:194-203 | the saved page is never itself the screensaver, so deactivation always leaves it |
| CompanionScreens.HomeInput | examples/companion_radio/ui-new/UITask.cpp:472-540 | handling a key keeps the home invariant, and an unhandled key changes nothing and issues no call |
| CompanionScreens.EnterInput | examples/companion_radio/ui-new/UITask.cpp:502-538 | Enter keeps the home invariant, never toggles dimming, and changes nothing when not handled |
| CompanionScreens.PageBack | examples/companion_radio/ui-new/UITask.cpp:491-494 | previous/left moves back one page, wrapping from the first page to the last, with no call |
| CompanionScreens.PageForward | examples/companion_radio/ui-new/UITask.cpp:495-501 | next/right moves forward one page, wrapping from the last page to the first, and shows "Send: long press" exactly on arriving at the recent page |
| CompanionScreens.BackForwardInverse | examples/companion_radio/ui-new/UITask.cpp:491-501 | forward then back, or back then forward, returns to the same page |
| CompanionScreens.ScreensaverKeys | examples/companion_radio/ui-new/UITask.cpp:479-489 | on the screensaver, Enter toggles dimming and saves the preferences; any other key returns to the saved page |
| CompanionScreens.TimePageEnter | examples/companion_radio/ui-new/UITask.cpp:535-538 | Enter on the time page toggles the screensaver mode when the display is on, and is not handled otherwise |
| CompanionScreens.RadioPageEnter | examples/companion_radio/ui-new/UITask.cpp:502-511 | Enter on the radio page with the display on toggles Bluetooth serial and shows the matching alert |
| CompanionScreens.RefreshSensors | examples/companion_radio/ui-new/UITask.cpp:168-187 | sensors are recounted only after their deadline, and then the scroll flag and a 5-second deadline are set |
| CompanionScreens.ScrollStep | examples/companion_radio/ui-new/UITask.cpp:451-452 | the scroll offset advances by one modulo the channel count, and only while scrolling |
| CompanionScreens.HomeRender | examples/companion_radio/ui-new/UITask.cpp:212-470 | a render keeps the home invariant; off the screensaver it asks for a redraw after 1000 ms exactly on the RECENT page with no adverts, else after 5000 ms, and always 1000 ms on the screensaver; the view changes only on the sensors page |
| CompanionScreens.ScrollRoundRobin | examples/companion_radio/ui-new/UITask.cpp:451-452 | k renders scroll the offset by k modulo the channel count, so every channel comes into view |
| CompanionScreens.SensorsRenderScrolls | examples/companion_radio/ui-new/UITask.cpp:168-187 | a sensors-page render asks for 5000 ms; when the refresh time has passed it takes the new channel count, its scroll flag and a refresh 5000 ms later, then scrolls one step over the new count; otherwise it scrolls one step over the old one; without scrolling the offset returns to 0 |
| CompanionScreens.RowsCoverSlots | examples/companion_radio/ui-new/UITask.cpp:302-304 | for any table of per-slot lines, every used slot below n has its line among those drawn |
| CompanionScreens.RowsOnlySlots | examples/companion_radio/ui-new/UITask.cpp:302-305 | for a slot-indexed table, every line drawn is for a used slot k below n and is that slot's line |
| CompanionScreens.RowSlotsBelow | examples/companion_radio/ui-new/UITask.cpp:302-304 | for a slot-indexed table, the lines drawn for the first n slots all name a slot below n |
| CompanionScreens.RecentNameWhole | examples/companion_radio/ui-new/UITask.cpp:313-318 | a printable name shorter than its 32-byte buffer that fits the width left of the age label and its 1 px gap is drawn exactly as stored |
| CompanionScreens.RecentNameShortened | examples/companion_radio/ui-new/UITask.cpp:313-318 | a transliterated name wider than the width left of the age label is drawn as a prefix of that transliteration followed by the ellipsis |
| CompanionScreens.RowsAscend | examples/companion_radio/ui-new/UITask.cpp:302-304 | for a slot-indexed table, the lines drawn are in strictly increasing slot order, so no slot is drawn twice |
| CompanionScreens.RecentPageRows | examples/companion_radio/ui-new/UITask.cpp:302-322 | the RECENT page draws every used slot and only used slots, in slot order, each as its slot's line: at y = 20 + 11 k, the name transliterated into its 32-byte buffer and ellipsized to the width left of the age label, and the age the clock gives it |
| CompanionScreens.DrawRecentLine | examples/companion_radio/ui-new/UITask.cpp:303-321 | one pass of the loop over a used slot gives that slot's line: the age label measured, the name transliterated into a 32-byte buffer, then ellipsized at y = 20 + 11 k |
| CompanionScreens.RecentRows | examples/companion_radio/ui-new/UITask.cpp:302-322 | the loop over the slots yields `RecentPage`: in slot order, one transliterated and ellipsized line for each used slot and none for empty ones |
| CompanionScreens.HomeScreen.constructor | examples/companion_radio/ui-new/UITask.cpp:209-210 | the home screen starts on the first page |
| CompanionScreens.HomeScreen.ActivateScreensaver | examples/companion_radio/ui-new/UITask.cpp:194-199 | the screen's view becomes `Activate` of the old view |
| CompanionScreens.HomeScreen.DeactivateScreensaver | examples/companion_radio/ui-new/UITask.cpp:201-203 | the screen's view becomes `Deactivate` of the old view |
| CompanionScreens.HomeScreen.HandleInput | examples/companion_radio/ui-new/UITask.cpp:472-540 | the new view, the handled flag and the calls returned are those of `HomeInput`, and the dimming preference is toggled when it says so |
| CompanionScreens.HomeScreen.HandleEnter | examples/companion_radio/ui-new/UITask.cpp:502-538 | the new view and the calls returned are those of `EnterInput` |
| CompanionScreens.HomeScreen.Render | examples/companion_radio/ui-new/UITask.cpp:212-470 | the new view and the delay are those of `HomeRender`; on the RECENT page with adverts the lines drawn are `RecentPage` for the display's own width, font and build, and no lines otherwise |
| MsgPreview.BlankSlots | examples/companion_radio/ui-new/UITask.cpp:555 | 32 empty entries |
| MsgPreview.OriginLabel | examples/companion_radio/ui-new/UITask.cpp:566-570 | the origin line is the sender's name, whole, before a closing ':', after a "(D) " or "(n) " prefix of the length the path gives |
| MsgPreview.OriginLabelDistinguishes | examples/companion_radio/ui-new/UITask.cpp:566-570 | the line starts with the bytes "(D" exactly for a direct message; otherwise the bytes after "(" read back as the path length |
| MsgPreview.OriginLabelPrintable | examples/companion_radio/ui-new/UITask.cpp:566-570 | the origin line is printable ASCII whenever the name is |
| MsgPreview.StoredText | examples/companion_radio/ui-new/UITask.cpp:571 | the stored text is the first 77 bytes of the message, or all of it when shorter |
| MsgPreview.PreviewEntry | examples/companion_radio/ui-new/UITask.cpp:564-571 | the entry written carries the arrival time and a text of at most 77 bytes |
| MsgPreview.Unread | examples/companion_radio/ui-new/UITask.cpp:553-555 | the unread list has `num_unread` entries, the newest, at `head`, first |
| MsgPreview.Push | examples/companion_radio/ui-new/UITask.cpp:560-572 | the head advances modulo 32, the count grows by one up to 32, and the buffer invariant is kept |
| MsgPreview.PushUnread | examples/companion_radio/ui-new/UITask.cpp:560-572 | after a push, the unread list is the new entry followed by the old list, cut to 32 |
| MsgPreview.FirstPushSlotZero | examples/companion_radio/ui-new/UITask.cpp:554-561 | the first message goes into slot 0 |
| MsgPreview.PushSaturates | examples/companion_radio/ui-new/UITask.cpp:562 | with 32 unread messages, a push drops the oldest and keeps the count at 32 |
| MsgPreview.PreviewInput | examples/companion_radio/ui-new/UITask.cpp:616-631 | next, right and Enter are handled and keep the slots; any other key changes nothing and issues no call |
| MsgPreview.NextDropsNewest | examples/companion_radio/ui-new/UITask.cpp:617-623 | next/right removes the newest unread message from the list |
| MsgPreview.EnterClears | examples/companion_radio/ui-new/UITask.cpp:625-628 | Enter leaves no unread messages and goes home |
| MsgPreview.PushThenNext | examples/companion_radio/ui-new/UITask.cpp:560-623 | receiving a message and then pressing next returns to the previous unread list |
| MsgPreview.PreviewRender | examples/companion_radio/ui-new/UITask.cpp:574-614 | the preview shows "Unread: n", the newest entry's age label, its origin transliterated into a 62-byte buffer and its text into a 78-byte buffer, and asks for a redraw after 1000 ms |
| MsgPreview.NewestShown | examples/companion_radio/ui-new/UITask.cpp:560-607 | right after a message arrives, the preview shows age "0s" and the transliteration of its first 77 bytes; a printable message is shown as sent, cut to 77 bytes; a printable sender name of up to 54 bytes gives the origin line itself |
| MsgPreview.FormatOrigin | examples/companion_radio/ui-new/UITask.cpp:566-570 | the two `sprintf` branches write exactly `OriginLabel` |
| MsgPreview.MsgPreviewScreen.constructor | examples/companion_radio/ui-new/UITask.cpp:558 | the screen starts with no unread messages and `head` at 31 |
| MsgPreview.MsgPreviewScreen.AddPreview | examples/companion_radio/ui-new/UITask.cpp:560-572 | the screen's view becomes `Push` of the old view with the entry `PreviewEntry` gives: origin line and the text cut to 77 bytes |
| MsgPreview.MsgPreviewScreen.HandleInput | examples/companion_radio/ui-new/UITask.cpp:616-631 | the new view and the calls returned are those of `PreviewInput` |
| MsgPreview.MsgPreviewScreen.Render | examples/companion_radio/ui-new/UITask.cpp:574-614 | returns `PreviewRender` of the current view for the display's build, transliterating origin and text through buffers of their own size |
| CompanionSpec.GpsPrefsApplied | examples/companion_radio/ui-new/UITask.cpp:679-690 | begin writes the GPS preference and, when set, the interval into the sensor settings, keeping their number |
| CompanionSpec.BeginInv | examples/companion_radio/ui-new/UITask.cpp:634-714 | the state begin produces satisfies the screens' invariant |
| CompanionSpec.FindAfterOtherSet | examples/companion_radio/ui-new/UITask.cpp:685-688 | writing "gps_interval" does not move the "gps" setting |
| CompanionSpec.BeginState | examples/companion_radio/ui-new/UITask.cpp:634-714 | after begin: splash shown, display on iff present, screensaver mode from the preferences, no unread messages, and the GPS power event and state follow the preference |
| CompanionSpec.SplashDismissal | examples/companion_radio/ui-new/UITask.cpp:55 | polling three seconds or more after begin goes home and sets the refresh deadline to 100, so the next loop redraws; earlier, the splash stays |
| CompanionSpec.ShowAlert | examples/companion_radio/ui-new/UITask.cpp:716-719 | the alert text and its expiry `now + millis` are set and nothing else changes |
| CompanionSpec.SetCurr | examples/companion_radio/ui-new/UITask.cpp:799-802 | the current screen changes and the refresh deadline becomes 100, so the next loop redraws, and nothing else changes |
| CompanionSpec.GotoHomeScreen | examples/companion_radio/ui-new/UITask.h:119 | the home screen is shown and the refresh deadline becomes 100, and nothing else changes |
| CompanionSpec.Notify | examples/companion_radio/ui-new/UITask.cpp:721-748 | with a buzzer: contact, channel and ack events play their own melody; any other event, or no buzzer, changes nothing |
| CompanionSpec.MsgRead | examples/companion_radio/ui-new/UITask.cpp:751-756 | the message count is updated, and a count of 0 goes home |
| CompanionSpec.NewMsgScreens | examples/companion_radio/ui-new/UITask.cpp:758-776 | the preview buffer gets the given entry first; the preview screen is shown unless the home screensaver is up |
| CompanionSpec.NewMsg | examples/companion_radio/ui-new/UITask.cpp:758-776 | the count and screens after a new message are those of `NewMsgScreens` for the entry `addPreview` stores, with the text cut to 77 bytes |
| CompanionSpec.NewMsgShowsPreview | examples/companion_radio/ui-new/UITask.cpp:758-776 | a new message keeps the invariant and becomes the newest unread entry, holding the first 77 bytes of its text; the preview is shown except on the screensaver |
| CompanionSpec.NewMsgWakesDisplay | examples/companion_radio/ui-new/UITask.cpp:765-775 | the display is woken only without a phone connection, and then auto-off and refresh are rescheduled; on the screensaver the timers are untouched |
| CompanionSpec.UserLed | examples/companion_radio/ui-new/UITask.cpp:778-797 | the LED handler changes only the LED's state and timers, with `millis()` read as an `int` and the change time wrapping as an `int` |
| CompanionSpec.LedBlinkCycle | examples/companion_radio/ui-new/UITask.cpp:778-797 | an off LED due to change lights for 20 ms (200 ms with unread messages), then goes off; the lengths hold modulo 2^32, and exactly, with on plus off making 4000 ms, while the change times stay below the `int` limit |
| CompanionSpec.LedWrapTurnsOff | examples/companion_radio/ui-new/UITask.cpp:789 | lit 10 ms before the `int` limit, the LED's change time wraps to -2^31 + 10, so it goes dark at the next call, 1 ms later |
| CompanionSpec.LedHoldsWhileClockNegative | examples/companion_radio/ui-new/UITask.cpp:780-781 | while `millis()` read as an `int` is negative, a non-negative change time is never passed, so the LED keeps its state |
| CompanionSpec.Shutdown | examples/companion_radio/ui-new/UITask.cpp:807-834 | restart only reboots; otherwise display off, GPS off if on, then radio and board power-off |
| CompanionSpec.ShutdownPowersOff | examples/companion_radio/ui-new/UITask.cpp:807-834 | shutdown keeps the earlier events, ends with radio and board power-off, and turns GPS off exactly when it was on |
| CompanionSpec.ToggleGps | examples/companion_radio/ui-new/UITask.cpp:1106-1130 | toggling GPS never changes the screens |
| CompanionSpec.StoreGps | examples/companion_radio/ui-new/UITask.cpp:1116-1117 | the GPS preference becomes the negation of the setting's old value |
| CompanionSpec.FlipGpsFlips | examples/companion_radio/ui-new/UITask.cpp:1111-1117 | flipping the "gps" setting negates the GPS state and keeps where the setting is found |
| CompanionSpec.ToggleGpsFlips | examples/companion_radio/ui-new/UITask.cpp:1106-1130 | with a GPS setting: the state flips, the preference follows, the GPS is powered accordingly, the alert lasts 800 ms, and toggling twice restores the state; without one, nothing changes |
| CompanionSpec.ToggleScreensaverInvolution | examples/companion_radio/ui-new/UITask.cpp:1054-1060 | toggling flips screensaver mode with its preference, saves it, and shows the ON/OFF alert; twice restores the modes |
| CompanionSpec.ToggleBacklightInvolution | examples/companion_radio/ui-new/UITask.cpp:1062-1067 | toggling flips forced backlight, extends auto-off, and shows "Backlight: ALWAYS" when now forced and "Backlight: BUTTON " otherwise; twice restores the modes |
| CompanionSpec.ToggleBuzzerFlips | examples/companion_radio/ui-new/UITask.cpp:1132-1148 | with a buzzer: quiet mode flips, the preference is saved, and un-muting plays the ack melody; twice restores; without a buzzer only the "Buzzer N/A" alert shows |
| CompanionSpec.WakeScreens | examples/companion_radio/ui-new/UITask.cpp:996-1010 | waking leaves the screensaver when the display is on and shows it, and changes nothing else |
| CompanionSpec.CheckDisplayOn | examples/companion_radio/ui-new/UITask.cpp:996-1010 | the screens after the check either are woken or are unchanged |
| CompanionSpec.CheckDisplayOnGate | examples/companion_radio/ui-new/UITask.cpp:996-1010 | with a display: a key is swallowed exactly when the display was off or the screensaver was up; the display is lit, auto-off extended and a redraw forced; without a display nothing changes |
| CompanionSpec.HandleLongPress | examples/companion_radio/ui-new/UITask.cpp:1012-1018 | a long press never changes the screens |
| CompanionSpec.RescueGate | examples/companion_radio/ui-new/UITask.cpp:1012-1018 | a long press within 8 s of start-up enters rescue mode and consumes the key; later it passes the key on |
| CompanionSpec.HandleDoubleClick | examples/companion_radio/ui-new/UITask.cpp:1020-1024 | a double click passes the key on after the display check |
| CompanionSpec.HandleTripleClick | examples/companion_radio/ui-new/UITask.cpp:1026-1032 | a triple click consumes the key |
| CompanionSpec.HandleQuadrupleClick | examples/companion_radio/ui-new/UITask.cpp:1034-1040 | a quadruple click consumes the key |
| CompanionSpec.ButtonKey | examples/companion_radio/ui-new/UITask.cpp:880-893 | no button event gives no key; any event leaves the screens woken or unchanged |
| CompanionSpec.ClickKeys | examples/companion_radio/ui-new/UITask.cpp:880-893 | a click is `next` on a lit display off the screensaver, and is swallowed otherwise; a double click is `prev`; triple and quadruple clicks produce no key |
| CompanionSpec.ButtonKeyKeepsInv | examples/companion_radio/ui-new/UITask.cpp:880-893 | button handling keeps the screens' invariant |
| CompanionSpec.Hibernation | examples/companion_radio/ui-new/UITask.cpp:1150-1223 | hibernation handling never changes the screens, and does nothing off the first home page |
| CompanionSpec.HibernationPressStarts | examples/companion_radio/ui-new/UITask.cpp:1159-1162 | a fresh press records its start time |
| CompanionSpec.HibernationArms | examples/companion_radio/ui-new/UITask.cpp:1181-1203 | holding 5 to 8 s after 10 s of uptime arms hibernation, extends auto-off by 3 s, and shows the warning and melody; shorter holds or early uptime change nothing |
| CompanionSpec.HibernationCancels | examples/companion_radio/ui-new/UITask.cpp:1206-1222 | holding an armed press past 8 s cancels it, forgets the press, shows "Power off cancelled" for 1.5 s and forces a redraw |
| CompanionSpec.CancelNeedsFreshPress | examples/companion_radio/ui-new/UITask.cpp:1206-1222 | after a cancel, a still-held button counts as a new press starting at the next call |
| CompanionSpec.HibernationRelease | examples/companion_radio/ui-new/UITask.cpp:1165-1174 | releasing forgets the press, and powers off exactly when hibernation was armed |
| CompanionSpec.ApplyCall | examples/companion_radio/ui-new/UITask.cpp:472-540 | a screen's callback into the UITask changes the screens only when it is `gotoHomeScreen` |
| CompanionSpec.ApplyCalls | examples/companion_radio/ui-new/UITask.cpp:472-540 | a list of callbacks goes home exactly when it contains `gotoHomeScreen` |
| CompanionSpec.HomeKey | examples/companion_radio/ui-new/UITask.cpp:921-925 | the home screen's key result replaces the home view |
| CompanionSpec.Dispatch | examples/companion_radio/ui-new/UITask.cpp:921-925 | delivering a key to the current screen keeps the invariant |
| CompanionSpec.InputStep | examples/companion_radio/ui-new/UITask.cpp:921-925 | a key keeps the invariant, extends auto-off and sets the refresh deadline to 100; no key changes nothing |
| CompanionSpec.Poll | examples/companion_radio/ui-new/UITask.cpp:933 | polling goes home exactly when the splash is shown and its deadline has passed |
| CompanionSpec.RenderScreen | examples/companion_radio/ui-new/UITask.cpp:935-953 | rendering keeps the home invariant; non-home screens ask for a redraw after 1000 ms |
| CompanionSpec.RenderStep | examples/companion_radio/ui-new/UITask.cpp:935-953 | the render step keeps the invariant |
| CompanionSpec.RenderSchedule | examples/companion_radio/ui-new/UITask.cpp:935-953 | a lit display due for redraw schedules the next one at the alert's expiry, or after the screen's own delay, always in the future; otherwise nothing changes |
| CompanionSpec.AutoOffStep | examples/companion_radio/ui-new/UITask.cpp:954-963 | auto-off keeps the invariant |
| CompanionSpec.AutoOffDecision | examples/companion_radio/ui-new/UITask.cpp:954-963 | past the deadline without forced backlight: the screensaver mode on home shows the screensaver page; otherwise the display turns off; before the deadline or with forced backlight nothing changes |
| CompanionSpec.BatteryStep | examples/companion_radio/ui-new/UITask.cpp:970-993 | the battery check never changes the screens |
| CompanionSpec.BatteryShutdown | examples/companion_radio/ui-new/UITask.cpp:970-993 | a due check reschedules itself 8 s later, and shuts down exactly when the reading is non-zero and below the threshold |
| CompanionSpec.Loop | examples/companion_radio/ui-new/UITask.cpp:844-994 | one loop iteration keeps the invariant |
| CompanionSpec.PendingSkipsLoop | examples/companion_radio/ui-new/UITask.cpp:846-855 | while hibernation is armed, the loop does nothing past hibernation handling |
| CompanionSpec.NewMsgWhilePendingStalls | examples/companion_radio/ui-new/UITask.cpp:758-764 | a message arriving while a power-off is armed on the first home page switches to the preview; the hibernation gate (line 1152) then skips, the armed flag stays, and every later loop call (846-855) leaves the state unchanged |
| CompanionSpec.PreviewLastMessageGoesHome | examples/companion_radio/ui-new/UITask.cpp:617-623 | stepping past the last unread message returns to the home screen with none unread |
| CompanionTask.UITask.constructor | examples/companion_radio/ui-new/UITask.h:85-114 | the UITask starts with no screens or drivers, no current screen, and zeroed timers, counters, LED and hold state |
| CompanionTask.UITask.Begin | examples/companion_radio/ui-new/UITask.cpp:634-714 | the UITask's state after begin is `Begin` of its inputs, and satisfies the invariant |
| CompanionTask.UITask.SetCurrScreen | examples/companion_radio/ui-new/UITask.cpp:799-802 | the state becomes `SetCurr` of the old state |
| CompanionTask.UITask.GotoHomeScreen | examples/companion_radio/ui-new/UITask.h:119 | the state becomes `GotoHomeScreen` of the old state |
| CompanionTask.UITask.ShowAlert | examples/companion_radio/ui-new/UITask.cpp:716-719 | the state becomes `ShowAlert` of the old state |
| CompanionTask.UITask.Notify | examples/companion_radio/ui-new/UITask.cpp:721-748 | the state becomes `Notify` of the old state |
| CompanionTask.UITask.MsgRead | examples/companion_radio/ui-new/UITask.cpp:751-756 | the state becomes `MsgRead` of the old state |
| CompanionTask.UITask.NewMsg | examples/companion_radio/ui-new/UITask.cpp:758-776 | the state becomes `NewMsg` of the old state, keeping the invariant |
| CompanionTask.UITask.UserLedHandler | examples/companion_radio/ui-new/UITask.cpp:778-797 | the state becomes `UserLed` of the old state, with the change time wrapped as an `int` |
| CompanionTask.UITask.GetGpsState | examples/companion_radio/ui-new/UITask.cpp:1042-1052 | returns whether the "gps" setting exists and is "1" |
| CompanionTask.UITask.SetGpsHardwareState | examples/companion_radio/ui-new/UITask.cpp:1069-1104 | logs the GPS power event and nothing else |
| CompanionTask.UITask.Shutdown | examples/companion_radio/ui-new/UITask.cpp:807-834 | the state becomes `Shutdown` of the old state |
| CompanionTask.UITask.ToggleScreensaver | examples/companion_radio/ui-new/UITask.cpp:1054-1060 | the state becomes `ToggleScreensaver` of the old state |
| CompanionTask.UITask.ToggleBacklight | examples/companion_radio/ui-new/UITask.cpp:1062-1067 | the state becomes `ToggleBacklight` of the old state |
| CompanionTask.UITask.ToggleBuzzer | examples/companion_radio/ui-new/UITask.cpp:1132-1148 | the state becomes `ToggleBuzzer` of the old state |
| CompanionTask.UITask.ToggleGps | examples/companion_radio/ui-new/UITask.cpp:1106-1130 | the state becomes `ToggleGps` of the old state |
| CompanionTask.UITask.CheckDisplayOn | examples/companion_radio/ui-new/UITask.cpp:996-1010 | state and key are those of `CheckDisplayOn` |
| CompanionTask.UITask.HandleLongPress | examples/companion_radio/ui-new/UITask.cpp:1012-1018 | state and key are those of `HandleLongPress` |
| CompanionTask.UITask.HandleDoubleClick | examples/companion_radio/ui-new/UITask.cpp:1020-1024 | state and key are those of `HandleDoubleClick` |
| CompanionTask.UITask.HandleTripleClick | examples/companion_radio/ui-new/UITask.cpp:1026-1032 | state and key are those of `HandleTripleClick` |
| CompanionTask.UITask.HandleQuadrupleClick | examples/companion_radio/ui-new/UITask.cpp:1034-1040 | state and key are those of `HandleQuadrupleClick` |
| CompanionTask.UITask.ButtonKey | examples/companion_radio/ui-new/UITask.cpp:880-893 | state and key are those of `ButtonKey` |
| CompanionTask.UITask.HandleHibernation | examples/companion_radio/ui-new/UITask.cpp:1150-1223 | the state becomes `Hibernation` of the old state |
| CompanionTask.UITask.ApplyCalls | examples/companion_radio/ui-new/UITask.cpp:472-540 | the state becomes `ApplyCalls` of the old state |
| CompanionTask.UITask.InputStep | examples/companion_radio/ui-new/UITask.cpp:921-925 | the state becomes `InputStep` of the old state, keeping the invariant |
| CompanionTask.UITask.Poll | examples/companion_radio/ui-new/UITask.cpp:933 | the state becomes `Poll` of the old state |
| CompanionTask.UITask.RenderStep | examples/companion_radio/ui-new/UITask.cpp:935-953 | the state becomes `RenderStep` of the old state |
| CompanionTask.UITask.AutoOff | examples/companion_radio/ui-new/UITask.cpp:954-963 | the state becomes `AutoOffStep` of the old state |
| CompanionTask.UITask.Battery | examples/companion_radio/ui-new/UITask.cpp:970-993 | the state becomes `BatteryStep` of the old state |
| CompanionTask.UITask.Loop | examples/companion_radio/ui-new/UITask.cpp:844-994 | the state becomes `Loop` of the old state, keeping the invariant |
| CompanionTask.ApplyGpsPrefs | examples/companion_radio/ui-new/UITask.cpp:679-690 | the sensor settings become `GpsPrefsApplied` of the old ones |
| CompanionTask.GpsIndex | examples/companion_radio/ui-new/UITask.cpp:1044-1050 | returns `FindSetting` of "gps" |
| SimpleRepeater.BeginStep | examples/simple_repeater/UITask.cpp:27-46 | begin lights the display, forgets any press, starts the 15 s auto-off, and stores the version cut at its first dash and bounded to 31 bytes |
| SimpleRepeater.NotSampledBeforeDue | examples/simple_repeater/UITask.cpp:127 | before the next read is due, the button is not sampled |
| SimpleRepeater.SampledWhenDue | examples/simple_repeater/UITask.cpp:127-148 | a due read records the level and schedules the next read 200 ms later; an unchanged level does nothing else |
| SimpleRepeater.PressWakesDisplay | examples/simple_repeater/UITask.cpp:130-135 | a falling edge records the press start, lights the display and extends auto-off |
| SimpleRepeater.ReleasePowersOffIffLong | examples/simple_repeater/UITask.cpp:136-144 | a rising edge forgets the press, and powers the display, radio and board off exactly when the press lasted 5 s or more |
| SimpleRepeater.FrameWhenDue | examples/simple_repeater/UITask.cpp:151-158 | a frame is drawn exactly when the display is on and the refresh is due, and then the next refresh is 1 s later |
| SimpleRepeater.AutoOff | examples/simple_repeater/UITask.cpp:159-161 | past the auto-off deadline the display is off; before it, its state is kept |
| SimpleRepeater.GaugeBounded | examples/simple_repeater/UITask.cpp:97-121 | after boot the frame shows the clamped percentage and a fill within the icon, and the reading is stored |
| SimpleRepeater.RefreshAtMostOncePerSecond | examples/simple_repeater/UITask.cpp:151-158 | two loop calls less than a second apart never both draw a frame |
| SimpleRepeater.PowerOffOnlyOnLongRelease | examples/simple_repeater/UITask.cpp:125-163 | a loop call logs nothing unless it sees the release of a long press, and then logs exactly radio and board power-off |
| SimpleRepeater.ButtonInvKept | examples/simple_repeater/UITask.cpp:130-145 | begin and every loop call keep "a press start is only recorded while the button is down" |
| SimpleRepeater.RepeaterUI.constructor | examples/simple_repeater/UITask.h:20 | the constructor zeroes the read and refresh deadlines |
| SimpleRepeater.RepeaterUI.Begin | examples/simple_repeater/UITask.cpp:27-46 | the state becomes `BeginStep` of the old state |
| SimpleRepeater.RepeaterUI.Press | examples/simple_repeater/UITask.cpp:130-135 | the state becomes `PressStep` of the old state |
| SimpleRepeater.RepeaterUI.Release | examples/simple_repeater/UITask.cpp:136-144 | the state becomes `ReleaseStep` of the old state |
| SimpleRepeater.RepeaterUI.SampleButton | examples/simple_repeater/UITask.cpp:127-148 | the state becomes `SampleStep` of the old state |
| SimpleRepeater.RepeaterUI.RenderCurrScreen | examples/simple_repeater/UITask.cpp:48-123 | returns `RenderFrame` and stores `RenderedBattery`, computed with C division and the two clamps |
| SimpleRepeater.RepeaterUI.Refresh | examples/simple_repeater/UITask.cpp:151-162 | state and frame are those of `DisplayStep` |
| SimpleRepeater.RepeaterUI.Loop | examples/simple_repeater/UITask.cpp:125-163 | state and frame are those of `LoopStep` |
| NeatRepeater.BeginStep | examples/simple_repeater/ui-neat/UITask.cpp:33-52 | begin lights the display, clears the hold and hibernation flags, starts the 15 s auto-off, and stores the version cut at its first dash |
| NeatRepeater.PressWakesDisplay | examples/simple_repeater/ui-neat/UITask.cpp:79-88 | a fresh press records its start, lights the display and extends auto-off, and logs nothing |
| NeatRepeater.LongHoldArms | examples/simple_repeater/ui-neat/UITask.cpp:103-128 | a hold of 5 to 8 s arms hibernation, extends auto-off by 3 s, and shows the warning and melody; shorter holds change nothing |
| NeatRepeater.LateCallArmsAndCancels | examples/simple_repeater/ui-neat/UITask.cpp:103-146 | a first call already past 8 s of holding arms and cancels in the same call |
| NeatRepeater.ReleasePowersOffIffPending | examples/simple_repeater/ui-neat/UITask.cpp:91-100 | releasing forgets the press, and powers off exactly when hibernation was armed |
| NeatRepeater.HoldOnCancels | examples/simple_repeater/ui-neat/UITask.cpp:131-146 | holding an armed press past 8 s cancels it, forgets the press, plays the cancel melody and forces a redraw |
| NeatRepeater.CancelNeedsFreshPress | examples/simple_repeater/ui-neat/UITask.cpp:131-146 | after a cancel, a still-held button counts as a new press at the next call |
| NeatRepeater.HoldInvKept | examples/simple_repeater/ui-neat/UITask.cpp:75-148 | "hibernation is armed only while a press is recorded" holds after begin and is kept by every call |
| NeatRepeater.PendingSkipsRest | examples/simple_repeater/ui-neat/UITask.cpp:254-262 | while hibernation is armed, the loop draws nothing and changes nothing past hibernation handling |
| NeatRepeater.RenderSchedule | examples/simple_repeater/ui-neat/UITask.cpp:264-275 | a frame is drawn exactly when the display is on and the refresh is due, then the next is 1 s later; past auto-off the display turns off |
| NeatRepeater.BatteryKeeps | examples/simple_repeater/ui-neat/UITask.cpp:277-300 | the battery check never touches the refresh deadline or the hold, and never lights the display |
| NeatRepeater.LowBatteryShutdown | examples/simple_repeater/ui-neat/UITask.cpp:277-300 | a due check reschedules itself 8 s later and powers off exactly when the reading is non-zero and below the threshold; an early check does nothing |
| NeatRepeater.GaugeBounded | examples/simple_repeater/ui-neat/UITask.cpp:223-240 | after boot the frame shows the clamped percentage and a fill within the icon, and the reading is stored |
| NeatRepeater.NameLineAlternates | examples/simple_repeater/ui-neat/UITask.cpp:184-201 | with the MQTT bridge, the line switches between name and address every 5 s, showing "WiFi Disconnected" when the address is due but Wi-Fi is down |
| NeatRepeater.NoBridgeShowsName | examples/simple_repeater/ui-neat/UITask.cpp:202-205 | without the MQTT bridge, the line always shows the node name |
| NeatRepeater.NeatUI.constructor | examples/simple_repeater/ui-neat/UITask.cpp:24-28 | the UITask starts with every deadline, flag and reading zero, an empty version and nothing done |
| NeatRepeater.NeatUI.Begin | examples/simple_repeater/ui-neat/UITask.cpp:33-52 | the state becomes `BeginStep` of the old state |
| NeatRepeater.NeatUI.Shutdown | examples/simple_repeater/ui-neat/UITask.cpp:57-65 | the state becomes `ShutdownStep` of the old state: reboot, or display, radio and board off |
| NeatRepeater.NeatUI.HandleHibernation | examples/simple_repeater/ui-neat/UITask.cpp:75-148 | the state becomes `HibernationStep` of the old state |
| NeatRepeater.NeatUI.RenderCurrScreen | examples/simple_repeater/ui-neat/UITask.cpp:150-247 | state and frame are those of `RenderStep`, with the percentage computed with C division and the clamps |
| NeatRepeater.NeatUI.Refresh | examples/simple_repeater/ui-neat/UITask.cpp:264-275 | state and frame are those of `DisplayStep` |
| NeatRepeater.NeatUI.CheckBattery | examples/simple_repeater/ui-neat/UITask.cpp:277-300 | the state becomes `BatteryStep` of the old state |
| NeatRepeater.NeatUI.Loop | examples/simple_repeater/ui-neat/UITask.cpp:249-301 | state and frame are those of `LoopStep` |

## Left out

**Hardware and drawing**
- Pixel output is not modelled. This covers `startFrame`, `print`, `fillRect`, `drawXbm`, colours, contrast, fonts and `printWordWrap`. A render is modelled by the values it shows and the delay it returns.
- Buzzer and vibration playback, and the buzzer and vibration `loop()` calls, are left out. A melody start is an event in the log.
- Pins, `digitalRead` and the GPS switching pins are left out. The button level is an input, and GPS power is an event.
- Power-off, reboot and rescue mode are terminal in the firmware but are events in the model. The model's loop may be called again afterwards.

**Variants and build options**
- Only the single-button builds are modelled. The joystick and analogue-button input paths, `BACKLIGHT_BTN` and `PIN_USER_BTN_ANA` are left out.
- Only one build variant's constants are used. Both repeaters use the 4000 ms boot screen; the `HELTEC_LORA_V4` values (8000 ms for the simple repeater, 7000 ms for `ui-neat`) are left out. The companion uses the 10 s auto-off of builds with a display timeout, so the e-ink branches where `AUTO_OFF_MILLIS` is 0 are left out.
- The showing of the e-ink low-battery alert before shutdown is left out.
- The companion's date, time, Bluetooth PIN, radio parameters, GPS fix and sensor values are left out. They depend on floating point and on firmware objects outside this model. The model keeps which page is shown and when it is redrawn.
- `isButtonPressed` in `ui-neat` is a per-tick input read once per loop. The firmware reads the pin once, at the start of `handleHibernation`, which is the same point.
- Each loop call takes one battery reading as input. The firmware reads the battery once in the render and again in the low-battery check; the model gives both the same value.

**Clock and types**
- `millis()` deadlines are unbounded. The 49-day wrap of `now + X` is not modelled, while the wrap of elapsed-time differences is.
- The simple repeater's `_battery_mv` is a `uint16_t` in the firmware and a natural number here. Readings above 65535 mV are not truncated.
- The companion's `next_sensors_refresh` is an `int` holding `millis() + 5000`. The model keeps it unbounded, so its sign overflow after about 24 days is not modelled.

**Sources outside this model**
- `UIScreen.h` and `AbstractUITask.h` are not part of this model. Neither is the header of `ui-neat`. The model assumes:
  - the base `handleInput` consumes nothing;
  - the base `poll` does nothing;
  - forced backlight starts off;
  - `ui-neat` declares the same fields as the code that uses them.
- `SensorManager` is modelled by its settings list only. `setSettingValue` is taken to replace the first setting with that name. Sensor queries and their LPP decoding are left out; the model takes the number of channels read as an input.
- `getRecentlyHeard`, the RTC, rescue mode, `advert()`, serial enabling and preference saving are outside this model. Their results are inputs, and their effects are events.

**Contracts and simplifications**
- Getters such as `getMsgCount`, `isBuzzerQuiet`, `hasDisplay` and `getGPSState` are read as fields of `State()`. `getGPSState` is also the method `CompanionTask.UITask.GetGpsState`.
- CompanionSpec.Shutdown: the firmware's `shutdown()` calls `turnOff()` on the display without checking it for NULL. The model only marks the display off, so it does not capture the crash on a board without a display.
- A message that arrives while a power-off is armed leaves the UI stalled on the preview screen until the app reports the messages read (`CompanionSpec.NewMsgWhilePendingStalls`). The source does not show whether it means newMsg to cancel the armed power-off or not to switch screens, so the model keeps the behaviour as written and proposes no corrected form.
- CompanionScreens.HomeRender: its contract states the redraw delays, the sensors refresh and scroll, and (through `HomeScreen.Render`) the RECENT lines. It does not state the text of the other pages. The home screen's node-name line is not modelled.
- `StrHelper` is not part of this model. `StoredText` takes `StrHelper::strncpy` to copy at most `size - 1` bytes and terminate them, like the firmware's other bounded copies.
- The origin line is written with `sprintf` into a 62-byte buffer. Contact names hold at most 31 bytes, so the longest line, "(255) " with 31 bytes and ':', takes 38 bytes and a NUL. The model does not bound it.
- `printWordWrap` of the preview text is pixel layout and is left out. The model gives the bytes it is asked to wrap.

## Findings

| source | as written | input that shows it | evidently intended | confidence | as-written member | corrected member |
|---|---|---|---|---|---|---|
| src/helpers/ui/DisplayDriver.h:148-151 | the trim loop bounds the prefix by width only, then `strcat` appends the ellipsis to `temp_str[256]` with no room check | 255 copies of "W" in a proportional font (W 7 px, i 2 px, l 3 px, '.' 2 px, space 3 px). The string measures 1785 px against a 1780 px limit. The loop keeps the 253 bytes that fit in 1780 - 9 px, and `strcat` appends the 4-byte "... ": 257 bytes and a NUL, 258 in all | the ellipsized text, the ellipsis and the NUL always fit the 256-byte buffer | not executed | Display.EllipsizedAsWritten / Display.EllipsisOverflowWitness | Display.Ellipsized |
| examples/simple_repeater/UITask.cpp:45 | `sprintf(_version_info, "%s", version)` copies the dash-free version into `char _version_info[32]` (UITask.h:12) without a bound | a 40-character firmware version with no '-' needs 41 bytes | the version shown is bounded by the buffer, as the companion's splash screen bounds its own copy | not executed | Labels.RepeaterVersionAsWritten / Labels.RepeaterVersionOverflowWitness | Labels.RepeaterVersion |
