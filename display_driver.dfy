/**
 * The text helpers of the display abstraction (src/helpers/ui/DisplayDriver.h): the surface's
 * dimensions, the three alignment helpers, the UTF-8 transliterator for fonts that only hold
 * single-byte glyphs, and the ellipsizing printer.
 *
 * Strings are the bytes of a C string without its terminating NUL. The font's `getTextWidth`
 * is a parameter of type TextWidth, so every statement here holds for every font.
 */
module Display {
  import opened Common

  /** `getTextWidth`: the width in pixels of a string drawn in the current font. */
  type TextWidth = seq<byte> -> nat

  /** A C string holds no NUL before its end. */
  predicate NoNul(s: seq<byte>) {
    forall k :: 0 <= k < |s| ==> s[k] != 0
  }

  /**
   * What text layout needs of a display: its width, its font's `getTextWidth`, and whether it is
   * an `OLED_RU` build, which selects the Cyrillic branch of `translateUTF8ToBlocks`.
   */
  datatype TextSurface = TextSurface(width: int, textWidth: TextWidth, ru: bool)

  /**
   * The surface: its fixed size, font and build, given when the concrete display is constructed,
   * and whether it is switched on (`isOn` / `turnOn` / `turnOff`, which the concrete displays keep in a flag).
   */
  class DisplayDriver {
    const w: int
    const h: int
    const textWidth: TextWidth
    const ru: bool
    var on: bool

    constructor (w: int, h: int, textWidth: TextWidth, ru: bool, on: bool)
      ensures Width() == w && Height() == h && this.on == on
      ensures Surface() == TextSurface(w, textWidth, ru)
    {
      this.w := w;
      this.h := h;
      this.textWidth := textWidth;
      this.ru := ru;
      this.on := on;
    }

    function Surface(): TextSurface {
      TextSurface(w, textWidth, ru)
    }

    function Width(): int { w }

    function Height(): int { h }

    method TurnOn()
      modifies this
      ensures on
    {
      on := true;
    }

    method TurnOff()
      modifies this
      ensures !on
    {
      on := false;
    }
  }

  // ---------------------------------------------------------------------------------------
  // Alignment

  /** Where `print` is asked to put `text`: the cursor set just before it. */
  datatype Placement = Placement(x: int, y: int, text: seq<byte>)

  /** `drawTextCentered`: the text's midpoint is at `midX`, rounded half a pixel to the right. */
  function DrawTextCentered(midX: int, y: int, str: seq<byte>, textWidth: TextWidth): (p: Placement)
    ensures p.y == y && p.text == str
    ensures textWidth(str) - 1 <= 2 * (midX - p.x) <= textWidth(str)
  {
    Placement(midX - textWidth(str) / 2, y, str)
  }

  /** `drawTextRightAlign`: the text ends exactly at `xAnch`. */
  function DrawTextRightAlign(xAnch: int, y: int, str: seq<byte>, textWidth: TextWidth): (p: Placement)
    ensures p.y == y && p.text == str
    ensures p.x + textWidth(str) == xAnch
  {
    Placement(xAnch - textWidth(str), y, str)
  }

  /** `drawTextLeftAlign`: the text starts exactly at `xAnch`. */
  function DrawTextLeftAlign(xAnch: int, y: int, str: seq<byte>): (p: Placement)
    ensures p.x == xAnch && p.y == y && p.text == str
  {
    Placement(xAnch, y, str)
  }

  /** For one anchor, the right-aligned text starts left of the centred one, which starts left of the left-aligned one. */
  lemma AlignmentOrder(x: int, y: int, str: seq<byte>, textWidth: TextWidth)
    ensures DrawTextRightAlign(x, y, str, textWidth).x <= DrawTextCentered(x, y, str, textWidth).x
    ensures DrawTextCentered(x, y, str, textWidth).x <= DrawTextLeftAlign(x, y, str).x
  {
  }

  // ---------------------------------------------------------------------------------------
  // translateUTF8ToBlocks

  /** Printable ASCII, the only bytes copied through unchanged. */
  predicate Printable(c: byte) {
    32 <= c <= 126
  }

  /** A UTF-8 continuation byte, `(c & 0xC0) == 0x80` (section 3 of RFC 3629). */
  predicate Continuation(c: byte) {
    0x80 <= c <= 0xBF
  }

  /** The glyph the non-Cyrillic build draws for any multibyte character: CP437 full block. */
  const BLOCK: byte := 0xDB
  /** The glyph the Cyrillic build draws for a non-Cyrillic multibyte character. */
  const FALLBACK_RU: byte := 0xAE

  /** A lead byte of a two-byte sequence the Cyrillic build decodes. */
  predicate CyrillicLead(c: byte) {
    c == 0xD0 || c == 0xD1 || c == 0xD2
  }

  /** The Windows-1251 code of the two-byte sequence `lead c`, or 0 when it has none. */
  function CyrillicCode(lead: byte, c: byte): (cc: byte)
    ensures lead == 0xD0 && 0x90 <= c <= 0xBF ==> cc as int == c as int + 48
    ensures lead == 0xD1 && 0x80 <= c <= 0x8F ==> cc as int == c as int + 112
    ensures cc != 0 ==> cc >= 0xA5
  {
    if lead == 0xD0 then
      if c == 132 then 170        // Є
      else if c == 134 then 178   // І
      else if c == 135 then 175   // Ї
      else if c == 129 then 168   // Ё
      else if 143 < c < 192 then c + 48
      else 0
    else if lead == 0xD1 then
      if c == 148 then 186        // є
      else if c == 150 then 179   // і
      else if c == 151 then 191   // ї
      else if c == 145 then 184   // ё
      else if 127 < c < 144 then c + 112
      else 0
    else if lead == 0xD2 then
      if c == 144 then 165        // Ґ
      else if c == 145 then 180   // ґ
      else 0
    else 0
  }

  /** The index the inner `while` stops at: after `i`, every following continuation byte is skipped. */
  function SkipContinuations(src: seq<byte>, i: nat): (k: nat)
    requires i < |src|
    ensures i <= k < |src|
    ensures forall m :: i < m <= k ==> Continuation(src[m])
    ensures k + 1 == |src| || !Continuation(src[k + 1])
    decreases |src| - i
  {
    if i + 1 < |src| && Continuation(src[i + 1]) then SkipContinuations(src, i + 1) else i
  }

  /** One pass of the `for` body at index `i`: what it writes, where it continues, the new `last_char`. */
  datatype Step = Step(out: seq<byte>, next: nat, last: byte)

  function TranslateStep(src: seq<byte>, i: nat, last: byte, ru: bool): (r: Step)
    requires i < |src|
    ensures i < r.next <= |src| && |r.out| <= 1
  {
    var c := src[i];
    if ru then
      if Printable(c) then Step([c], i + 1, 0)
      else if last == 0 && CyrillicLead(c) then Step([], i + 1, c)
      else if last > 0 then
        var cc := CyrillicCode(last, c);
        Step(if cc > 0 then [cc] else [], i + 1, 0)
      else if c >= 0x80 then Step([FALLBACK_RU], SkipContinuations(src, i) + 1, 0)
      else Step([], i + 1, last)
    else
      if Printable(c) then Step([c], i + 1, last)
      else if c >= 0x80 then Step([BLOCK], SkipContinuations(src, i) + 1, last)
      else Step([], i + 1, last)
  }

  /** The whole transliteration of `src[i..]` (up to its first NUL), ignoring the destination's size. */
  function TranslateFrom(src: seq<byte>, i: nat, last: byte, ru: bool): seq<byte>
    requires i <= |src|
    decreases |src| - i
  {
    if i == |src| || src[i] == 0 then []
    else
      var r := TranslateStep(src, i, last, ru);
      r.out + TranslateFrom(src, r.next, r.last, ru)
  }

  /** The text `translateUTF8ToBlocks` would write into a destination of unlimited size. */
  function Translate(src: seq<byte>, ru: bool): seq<byte> {
    TranslateFrom(src, 0, 0, ru)
  }

  /**
   * `translateUTF8ToBlocks(dest, src, dest.Length)`: writes the first `dest.Length - 1` bytes of
   * the transliteration (all of it when shorter), NUL-terminates it, and leaves the rest of `dest` alone.
   * `ru` selects the `OLED_RU` build.
   */
  method TranslateUTF8ToBlocks(dest: array<byte>, src: seq<byte>, ru: bool)
    requires dest.Length >= 1
    modifies dest
    ensures var n := Min(|Translate(src, ru)|, dest.Length - 1);
      dest[n] == 0 && dest[..n] == Translate(src, ru)[..n]
    ensures var n := Min(|Translate(src, ru)|, dest.Length - 1);
      forall k :: n < k < dest.Length ==> dest[k] == old(dest[k])
  {
    ghost var whole := Translate(src, ru);
    ghost var rest := whole;
    var j := 0;
    var i := 0;
    var last: byte := 0;
    while i < |src| && src[i] != 0 && j < dest.Length - 1
      invariant 0 <= i <= |src| && 0 <= j <= dest.Length - 1
      invariant rest == TranslateFrom(src, i, last, ru)
      invariant whole == dest[..j] + rest
      invariant forall k :: j <= k < dest.Length ==> dest[k] == old(dest[k])
      invariant !ru ==> last == 0
    {
      ghost var before := dest[..j];
      ghost var step := TranslateStep(src, i, last, ru);
      ghost var oldRest := rest;
      UnfoldTranslate(src, i, last, ru);
      rest := TranslateFrom(src, step.next, step.last, ru);
      assert oldRest == step.out + rest;
      if ru {
        i, j, last := TranslateByteRu(dest, src, i, j, last);
      } else {
        i, j := TranslateByte(dest, src, i, j);
      }
      assert dest[..j] == before + step.out;
      Advance(whole, before, step.out, oldRest, rest);
    }
    ghost var done := dest[..j];
    PrefixWritten(whole, done, rest, dest.Length - 1);
    dest[j] := 0;
    assert dest[..j] == done;
  }

  lemma Advance(whole: seq<byte>, before: seq<byte>, out: seq<byte>, oldRest: seq<byte>, rest: seq<byte>)
    requires whole == before + oldRest && oldRest == out + rest
    ensures whole == (before + out) + rest
  {
  }

  lemma UnfoldTranslate(src: seq<byte>, i: nat, last: byte, ru: bool)
    requires i < |src| && src[i] != 0
    ensures var step := TranslateStep(src, i, last, ru);
      TranslateFrom(src, i, last, ru) == step.out + TranslateFrom(src, step.next, step.last, ru)
  {
  }

  /** When the loop stops, the bytes written are the first `cap` bytes of the whole text, or all of it. */
  lemma PrefixWritten(whole: seq<byte>, done: seq<byte>, rest: seq<byte>, cap: nat)
    requires whole == done + rest && |done| <= cap
    requires rest == [] || |done| == cap
    ensures Min(|whole|, cap) == |done| && whole[..|done|] == done
  {
  }

  /** One pass of the `for` body in the default build; returns the next `i` and `j`. */
  method TranslateByte(dest: array<byte>, src: seq<byte>, i0: nat, j0: nat) returns (i: nat, j: nat)
    requires i0 < |src| && j0 < dest.Length - 1
    modifies dest
    ensures var step := TranslateStep(src, i0, 0, false);
      i == step.next && j == j0 + |step.out| && dest[..j] == old(dest[..j0]) + step.out
    ensures forall k :: j <= k < dest.Length ==> dest[k] == old(dest[k])
  {
    i, j := i0, j0;
    var c := src[i];
    if 32 <= c <= 126 {
      dest[j] := c;    // 0x20..0x7E is copied as it is
      j := j + 1;
    } else if c >= 0x80 {
      dest[j] := BLOCK;
      j := j + 1;
      i := SkipContinuationBytes(src, i);
    }
    i := i + 1;
  }

  /** One pass of the `for` body in the `OLED_RU` build; returns the next `i`, `j` and `last_char`. */
  method TranslateByteRu(dest: array<byte>, src: seq<byte>, i0: nat, j0: nat, last0: byte)
    returns (i: nat, j: nat, last: byte)
    requires i0 < |src| && j0 < dest.Length - 1
    modifies dest
    ensures var step := TranslateStep(src, i0, last0, true);
      i == step.next && last == step.last && j == j0 + |step.out| && dest[..j] == old(dest[..j0]) + step.out
    ensures forall k :: j <= k < dest.Length ==> dest[k] == old(dest[k])
  {
    i, j, last := i0, j0, last0;
    var c := src[i];
    if 32 <= c <= 126 {
      last := 0;
      dest[j] := c;    // 0x20..0x7E is copied as it is
      j := j + 1;
    } else if last == 0 && (c == 0xD0 || c == 0xD1 || c == 0xD2) {
      last := c;       // lead byte of a two-byte Cyrillic sequence
    } else if last > 0 {
      var cc := CyrillicCode(last, c);
      if cc > 0 {
        dest[j] := cc;
        j := j + 1;
      }
      last := 0;
    } else if c >= 0x80 {
      last := 0;
      dest[j] := FALLBACK_RU;
      j := j + 1;
      i := SkipContinuationBytes(src, i);
    }
    i := i + 1;
  }

  /** The inner `while (src[i+1] && (src[i+1] & 0xC0) == 0x80) i++;` of `translateUTF8ToBlocks`. */
  method SkipContinuationBytes(src: seq<byte>, i0: nat) returns (i: nat)
    requires i0 < |src|
    ensures i == SkipContinuations(src, i0)
  {
    i := i0;
    while i + 1 < |src| && 0x80 <= src[i + 1] <= 0xBF
      invariant i0 <= i < |src|
      invariant SkipContinuations(src, i) == SkipContinuations(src, i0)
    {
      i := i + 1;
    }
  }

  // Properties of the transliteration

  /** Every source byte yields at most one glyph, so the text never grows. */
  lemma {:induction false} TranslateFromLength(src: seq<byte>, i: nat, last: byte, ru: bool)
    requires i <= |src|
    ensures |TranslateFrom(src, i, last, ru)| <= |src| - i
    decreases |src| - i
  {
    if i < |src| && src[i] != 0 {
      var r := TranslateStep(src, i, last, ru);
      TranslateFromLength(src, r.next, r.last, ru);
    }
  }

  lemma TranslateLength(src: seq<byte>, ru: bool)
    ensures |Translate(src, ru)| <= |src|
  {
    TranslateFromLength(src, 0, 0, ru);
  }

  /** The translation never emits a NUL, so it reads back whole as a C string. */
  lemma TranslateNoNul(src: seq<byte>, ru: bool)
    ensures NoNul(Translate(src, ru))
  {
    var t := Translate(src, ru);
    if ru {
      CyrillicGlyphsOnly(src, 0, 0);
    } else {
      DefaultGlyphsOnly(src, 0, 0);
    }
    forall k | 0 <= k < |t| ensures t[k] != 0 {
      assert t[k] in t;
    }
  }

  /**
   * The C string `translateUTF8ToBlocks` leaves in a buffer of `size` bytes: the translation cut
   * to `size - 1` bytes. A source that fits the buffer is translated whole.
   */
  function Blocks(src: seq<byte>, size: nat, ru: bool): (t: seq<byte>)
    requires size >= 1
    ensures |t| <= size - 1 && |t| <= |src| && NoNul(t)
    ensures |t| == Min(|Translate(src, ru)|, size - 1) && t == Translate(src, ru)[..|t|]
    ensures |src| < size ==> t == Translate(src, ru)
  {
    TranslateLength(src, ru);
    TranslateNoNul(src, ru);
    var whole := Translate(src, ru);
    whole[..Min(|whole|, size - 1)]
  }

  /** A printable ASCII source that fits the buffer comes out unchanged. */
  lemma BlocksPrintable(src: seq<byte>, size: nat, ru: bool)
    requires size >= 1 && |src| < size
    requires forall k :: 0 <= k < |src| ==> Printable(src[k])
    ensures Blocks(src, size, ru) == src
  {
    PrintableUnchanged(src, 0, 0, ru);
  }

  /** `strlen`: the bytes before the first NUL of `a`, which holds one somewhere. */
  method Strlen(a: array<byte>) returns (n: nat)
    requires exists z :: 0 <= z < a.Length && a[z] == 0
    ensures n < a.Length && a[n] == 0 && NoNul(a[..n])
  {
    ghost var z :| 0 <= z < a.Length && a[z] == 0;
    n := 0;
    while a[n] != 0
      invariant n <= z && forall k :: 0 <= k < n ==> a[k] != 0
      decreases z - n
    {
      n := n + 1;
    }
  }

  /**
   * `char buf[size]; translateUTF8ToBlocks(buf, src, size)`, then the C string in `buf`: what a
   * screen prints after transliterating a text.
   */
  method TranslatedText(src: seq<byte>, size: nat, ru: bool) returns (t: seq<byte>)
    requires size >= 1
    ensures t == Blocks(src, size, ru)
  {
    var buf := new byte[size];
    TranslateUTF8ToBlocks(buf, src, ru);
    ghost var want := Blocks(src, size, ru);
    assert buf[|want|] == 0 && buf[..|want|] == want;
    assert forall k :: 0 <= k < |want| ==> buf[k] != 0 by {
      forall k | 0 <= k < |want| ensures buf[k] != 0 {
        assert buf[..|want|][k] == want[k];
      }
    }
    var n := Strlen(buf);
    assert forall k :: 0 <= k < n ==> buf[k] != 0 by {
      forall k | 0 <= k < n ensures buf[k] != 0 {
        assert buf[..n][k] == buf[k];
      }
    }
    assert n == |want|;
    t := buf[..n];
  }

  /** A glyph the default build can emit: printable ASCII or the full block. */
  predicate DefaultGlyph(c: byte) {
    Printable(c) || c == BLOCK
  }

  /** A glyph the Cyrillic build can emit: printable ASCII or a code of the upper half from 0xA5 on. */
  predicate CyrillicGlyph(c: byte) {
    Printable(c) || c >= 0xA5
  }

  /** The default build emits only printable ASCII and full blocks: never a control byte, DEL, or a raw UTF-8 byte. */
  lemma {:induction false} DefaultGlyphsOnly(src: seq<byte>, i: nat, last: byte)
    requires i <= |src|
    ensures forall b :: b in TranslateFrom(src, i, last, false) ==> DefaultGlyph(b)
    decreases |src| - i
  {
    if i < |src| && src[i] != 0 {
      var r := TranslateStep(src, i, last, false);
      DefaultGlyphsOnly(src, r.next, r.last);
    }
  }

  /** The Cyrillic build emits only printable ASCII and codes from 0xA5 up: never a NUL, a control byte or DEL. */
  lemma {:induction false} CyrillicGlyphsOnly(src: seq<byte>, i: nat, last: byte)
    requires i <= |src|
    ensures forall b :: b in TranslateFrom(src, i, last, true) ==> CyrillicGlyph(b)
    decreases |src| - i
  {
    if i < |src| && src[i] != 0 {
      var r := TranslateStep(src, i, last, true);
      CyrillicGlyphsOnly(src, r.next, r.last);
    }
  }

  /** Pure printable ASCII is copied through unchanged by both builds. */
  lemma {:induction false} PrintableUnchanged(src: seq<byte>, i: nat, last: byte, ru: bool)
    requires i <= |src|
    requires forall k :: i <= k < |src| ==> Printable(src[k])
    ensures TranslateFrom(src, i, last, ru) == src[i..]
    decreases |src| - i
  {
    if i < |src| {
      var r := TranslateStep(src, i, last, ru);
      PrintableUnchanged(src, r.next, r.last, ru);
    }
  }

  /**
   * A byte from 0x80 up and the `n - 1` continuation bytes after it become exactly one glyph: the
   * full block, or in the Cyrillic build the fallback glyph when it is not a Cyrillic lead. This
   * covers a lead byte with its tail and also a stray continuation byte.
   */
  lemma MultibyteOneGlyph(src: seq<byte>, i: nat, n: nat, last: byte, ru: bool)
    requires 1 <= n && i + n <= |src|
    requires src[i] >= 0x80
    requires forall m :: i < m < i + n ==> Continuation(src[m])
    requires i + n == |src| || !Continuation(src[i + n])
    requires ru ==> last == 0 && !CyrillicLead(src[i])
    ensures TranslateFrom(src, i, last, ru)
         == [if ru then FALLBACK_RU else BLOCK] + TranslateFrom(src, i + n, last, ru)
  {
  }

  /** In the Cyrillic build a lead byte and the byte after it become the Windows-1251 code of the pair, or nothing. */
  lemma CyrillicPair(src: seq<byte>, i: nat)
    requires i + 1 < |src| && CyrillicLead(src[i]) && src[i + 1] != 0 && !Printable(src[i + 1])
    ensures var cc := CyrillicCode(src[i], src[i + 1]);
      TranslateFrom(src, i, 0, true) == (if cc > 0 then [cc] else []) + TranslateFrom(src, i + 2, 0, true)
  {
  }

  /** Control bytes and DEL produce nothing; in the Cyrillic build they also end a pending lead byte. */
  lemma ControlEmitsNothing(src: seq<byte>, i: nat, last: byte, ru: bool)
    requires i < |src| && src[i] != 0 && (src[i] < 32 || src[i] == 127)
    ensures TranslateFrom(src, i, last, ru) == TranslateFrom(src, i + 1, if ru then 0 else last, ru)
  {
  }

  /** The code point of the two-byte UTF-8 sequence `110xxxxx 10yyyyyy` (section 3 of RFC 3629). */
  function CodePoint(lead: byte, c: byte): (u: int)
    requires 0xC0 <= lead <= 0xDF && Continuation(c)
    ensures 0 <= u < 0x800
  {
    (lead as int - 0xC0) * 64 + (c as int - 0x80)
  }

  /**
   * The Windows-1251 code of a Unicode code point among the Russian and Ukrainian letters, or 0:
   * U+0410..U+044F are 0xC0..0xFF, and the ten letters outside that block have their own codes.
   */
  function Cp1251(u: int): (code: byte)
    ensures code != 0 ==> 0xA5 <= code
  {
    if 0x0410 <= u <= 0x044F then (u - 0x0410 + 0xC0) as byte
    else if u == 0x0401 then 0xA8      // Ё
    else if u == 0x0451 then 0xB8      // ё
    else if u == 0x0404 then 0xAA      // Є
    else if u == 0x0454 then 0xBA      // є
    else if u == 0x0406 then 0xB2      // І
    else if u == 0x0456 then 0xB3      // і
    else if u == 0x0407 then 0xAF      // Ї
    else if u == 0x0457 then 0xBF      // ї
    else if u == 0x0490 then 0xA5      // Ґ
    else if u == 0x0491 then 0xB4      // ґ
    else 0
  }

  /**
   * The Cyrillic build's byte-level table agrees with decoding the UTF-8 pair and looking the code
   * point up in Windows-1251, for every lead it recognises and every continuation byte.
   */
  lemma CyrillicCodeIsCp1251(lead: byte, c: byte)
    requires CyrillicLead(lead) && Continuation(c)
    ensures CyrillicCode(lead, c) == Cp1251(CodePoint(lead, c))
  {
  }

  /** A second byte that is not a continuation byte never yields a glyph. */
  lemma CyrillicCodeNeedsContinuation(lead: byte, c: byte)
    requires !Continuation(c)
    ensures CyrillicCode(lead, c) == 0
  {
  }

  // ---------------------------------------------------------------------------------------
  // drawTextEllipsized

  /** The size of `temp_str`, including its terminating NUL. */
  const TEMP_SIZE: nat := 256

  /** The first `TEMP_SIZE - 1` bytes of `str`: what is copied into `temp_str`. */
  function Clip(str: seq<byte>): (t: seq<byte>)
    ensures |t| == Min(|str|, TEMP_SIZE - 1) && t == str[..|t|]
  {
    if |str| >= TEMP_SIZE then str[..TEMP_SIZE - 1] else str
  }

  /** `"... "` for a proportional font (where 'i' and 'l' differ in width), `"..."` for a fixed one. */
  function Ellipsis(textWidth: TextWidth): (e: seq<byte>)
    ensures textWidth([105]) != textWidth([108]) ==> e == [46, 46, 46, 32]
    ensures textWidth([105]) == textWidth([108]) ==> e == [46, 46, 46]
  {
    if textWidth([105]) != textWidth([108]) then [46, 46, 46, 32] else [46, 46, 46]
  }

  /**
   * The length the trimming loop stops at when started from `n`: the longest prefix of at most
   * `n` bytes that is at most `limit` wide, or nothing.
   */
  function FitLength(t: seq<byte>, n: nat, limit: int, textWidth: TextWidth): (k: nat)
    requires n <= |t|
    ensures k <= n
    ensures k == 0 || textWidth(t[..k]) <= limit
    ensures forall m :: k < m <= n ==> textWidth(t[..m]) > limit
    decreases n
  {
    if n == 0 || textWidth(t[..n]) <= limit then n else FitLength(t, n - 1, limit, textWidth)
  }

  /** The longest-fitting prefix is the only length with the three properties FitLength promises. */
  lemma FitLengthUnique(t: seq<byte>, n: nat, limit: int, textWidth: TextWidth, k: nat)
    requires k <= n <= |t|
    requires k == 0 || textWidth(t[..k]) <= limit
    requires forall m :: k < m <= n ==> textWidth(t[..m]) > limit
    ensures FitLength(t, n, limit, textWidth) == k
  {
  }

  /**
   * The text `drawTextEllipsized` builds in `temp_str` as the code is written: the clipped string
   * when it fits, otherwise its longest prefix that leaves room for the ellipsis, plus the ellipsis.
   */
  function EllipsizedAsWritten(str: seq<byte>, maxWidth: int, textWidth: TextWidth): (r: seq<byte>)
    ensures textWidth(Clip(str)) <= maxWidth ==> r == Clip(str)
    ensures textWidth(Clip(str)) > maxWidth ==>
      |Ellipsis(textWidth)| <= |r| <= |Clip(str)| + |Ellipsis(textWidth)|
      && r == str[..|r| - |Ellipsis(textWidth)|] + Ellipsis(textWidth)
  {
    var t := Clip(str);
    if textWidth(t) <= maxWidth then t
    else
      var e := Ellipsis(textWidth);
      t[..FitLength(t, |t|, maxWidth - textWidth(e), textWidth)] + e
  }

  /** The advance of one glyph in a sample proportional font: 'W' 7 px, 'i' 2, 'l' 3, '.' 2, ' ' 3, others 5. */
  function SampleGlyph(c: byte): nat {
    if c == 87 then 7 else if c == 105 then 2 else if c == 108 then 3 else if c == 46 then 2
    else if c == 32 then 3 else 5
  }

  /** The sample font's `getTextWidth`: the sum of its glyph advances. */
  function SampleWidth(s: seq<byte>): nat {
    if s == [] then 0 else SampleWidth(s[..|s| - 1]) + SampleGlyph(s[|s| - 1])
  }

  /** `n` bytes 'W'. */
  function RunOfW(n: nat): (s: seq<byte>)
    ensures |s| == n
  {
    if n == 0 then [] else RunOfW(n - 1) + [87]
  }

  /** A prefix of a run of 'W' is a shorter run. */
  lemma {:induction false} RunOfWPrefix(n: nat, m: nat)
    requires m <= n
    ensures RunOfW(n)[..m] == RunOfW(m)
    decreases n
  {
    if m < n {
      RunOfWPrefix(n - 1, m);
      assert RunOfW(n)[..m] == RunOfW(n - 1)[..m];
    }
  }

  /** A run of `m` glyphs 'W' is `7 m` px wide in the sample font. */
  lemma {:induction false} RunOfWWidth(m: nat)
    ensures SampleWidth(RunOfW(m)) == 7 * m
  {
    if m > 0 {
      assert RunOfW(m)[..m - 1] == RunOfW(m - 1);
      RunOfWWidth(m - 1);
    }
  }

  /** The sample font is proportional, so its ellipsis is `"... "`, 9 px wide. */
  lemma SampleEllipsis()
    ensures Ellipsis(SampleWidth) == [46, 46, 46, 32] && SampleWidth(Ellipsis(SampleWidth)) == 9
  {
    assert SampleWidth([105]) == 2 && SampleWidth([108]) == 3;
    var e: seq<byte> := [46, 46, 46, 32];
    assert e[..1][..0] == [] && e[..2][..1] == e[..1] && e[..3][..2] == e[..2];
    assert SampleWidth(e[..1]) == 2 && SampleWidth(e[..2]) == 4 && SampleWidth(e[..3]) == 6;
  }

  /**
   * The text as written does not always fit `temp_str`: 255 glyphs 'W' (1785 px) with a 1780 px
   * limit are trimmed to the 253 that leave room for the 9 px ellipsis `"... "`, and `strcat`
   * then writes 253 + 4 bytes and a NUL, 258 bytes.
   */
  lemma EllipsisOverflowWitness()
    ensures |EllipsizedAsWritten(RunOfW(255), 1780, SampleWidth)| + 1 > TEMP_SIZE
  {
    var str := RunOfW(255);
    assert Clip(str) == str;
    SampleEllipsis();
    RunOfWPrefix(255, 253);
    RunOfWPrefix(255, 254);
    RunOfWWidth(253);
    RunOfWWidth(254);
    RunOfWWidth(255);
    assert str[..255] == str;
    FitLengthUnique(str, 255, 1780 - 9, SampleWidth, 253);
  }

  /**
   * The text with the buffer bound kept: the prefix is also short enough for the ellipsis and the
   * NUL to fit in `temp_str`; otherwise as above.
   */
  function Ellipsized(str: seq<byte>, maxWidth: int, textWidth: TextWidth): (r: seq<byte>)
    ensures |r| < TEMP_SIZE
    ensures textWidth(Clip(str)) <= maxWidth ==> r == Clip(str)
    ensures textWidth(Clip(str)) > maxWidth ==>
      var e := Ellipsis(textWidth);
      var k := |r| - |e|;
      0 <= k <= |Clip(str)| && r == str[..k] + e
      && (k == 0 || textWidth(str[..k]) <= maxWidth - textWidth(e))
      && forall m :: k < m <= |Clip(str)| && m + |e| < TEMP_SIZE ==> textWidth(str[..m]) > maxWidth - textWidth(e)
  {
    var t := Clip(str);
    if textWidth(t) <= maxWidth then t
    else
      var e := Ellipsis(textWidth);
      var k := FitLength(t, Min(|t|, TEMP_SIZE - 1 - |e|), maxWidth - textWidth(e), textWidth);
      assert forall m :: 0 <= m <= |t| ==> t[..m] == str[..m];
      t[..k] + e
  }

  /** Wherever the text as written fits the buffer, the bounded version prints the same text. */
  lemma EllipsizedAgrees(str: seq<byte>, maxWidth: int, textWidth: TextWidth)
    requires |EllipsizedAsWritten(str, maxWidth, textWidth)| < TEMP_SIZE
    ensures Ellipsized(str, maxWidth, textWidth) == EllipsizedAsWritten(str, maxWidth, textWidth)
  {
    var t := Clip(str);
    if textWidth(t) > maxWidth {
      var e := Ellipsis(textWidth);
      var limit := maxWidth - textWidth(e);
      var k := FitLength(t, |t|, limit, textWidth);
      FitLengthUnique(t, Min(|t|, TEMP_SIZE - 1 - |e|), limit, textWidth, k);
    }
  }

  /**
   * `drawTextEllipsized(x, y, max_width, str)` with the buffer bound kept: copies at most 255 bytes
   * into `temp_str`, prints them when they fit `max_width`, and otherwise trims the tail until the
   * ellipsis fits both the width and the buffer, then appends it.
   */
  method DrawTextEllipsized(x: int, y: int, maxWidth: int, str: seq<byte>, textWidth: TextWidth)
    returns (p: Placement)
    ensures p == Placement(x, y, Ellipsized(str, maxWidth, textWidth))
  {
    var temp, len := CopyClipped(str);
    if textWidth(temp[..len]) <= maxWidth {
      return Placement(x, y, temp[..len]);
    }
    var e := Ellipsis(textWidth);
    var strLen := TrimToFit(temp, len, maxWidth - textWidth(e), |e|, textWidth);
    AppendEllipsis(temp, strLen, e);
    p := Placement(x, y, temp[..strLen + |e|]);
  }

  /** `strlen`, the clamp to 255, `memcpy` and the terminating NUL into a fresh `temp_str`. */
  method CopyClipped(str: seq<byte>) returns (temp: array<byte>, len: nat)
    ensures fresh(temp) && temp.Length == TEMP_SIZE
    ensures len < TEMP_SIZE && temp[..len] == Clip(str) && temp[len] == 0
  {
    temp := new byte[TEMP_SIZE];
    len := |str|;
    if len >= TEMP_SIZE {
      len := TEMP_SIZE - 1;
    }
    forall k | 0 <= k < len {
      temp[k] := str[k];
    }
    temp[len] := 0;
  }

  /**
   * The trimming `while`, with the buffer bound added: drops trailing bytes while the prefix is
   * wider than `limit` or leaves no room for `ellipsisLen` bytes and the NUL. Bytes are only
   * overwritten with NUL, so the prefix kept is unchanged.
   */
  method TrimToFit(temp: array<byte>, len: nat, limit: int, ellipsisLen: nat, textWidth: TextWidth)
    returns (strLen: nat)
    requires len <= temp.Length && ellipsisLen < TEMP_SIZE
    modifies temp
    ensures strLen <= len && temp[..strLen] == old(temp[..strLen])
    ensures strLen == FitLength(old(temp[..len]), Min(len, TEMP_SIZE - 1 - ellipsisLen), limit, textWidth)
  {
    ghost var t := temp[..len];
    strLen := len;
    while strLen > 0 && (textWidth(temp[..strLen]) > limit || strLen + ellipsisLen > TEMP_SIZE - 1)
      invariant 0 <= strLen <= len
      invariant temp[..strLen] == t[..strLen]
      invariant forall k :: 0 <= k < strLen ==> temp[k] == old(temp[k])
      invariant FitLength(t, Min(strLen, TEMP_SIZE - 1 - ellipsisLen), limit, textWidth)
             == FitLength(t, Min(len, TEMP_SIZE - 1 - ellipsisLen), limit, textWidth)
    {
      strLen := strLen - 1;
      temp[strLen] := 0;
    }
  }

  /** `strcat(temp_str, ellipsis)` where the string in `temp_str` is `strLen` bytes long. */
  method AppendEllipsis(temp: array<byte>, strLen: nat, e: seq<byte>)
    requires strLen + |e| < temp.Length
    modifies temp
    ensures temp[..strLen + |e|] == old(temp[..strLen]) + e && temp[strLen + |e|] == 0
  {
    forall k | 0 <= k < |e| {
      temp[strLen + k] := e[k];
    }
    temp[strLen + |e|] := 0;
    assert temp[..strLen + |e|] == old(temp[..strLen]) + e;
  }
}
