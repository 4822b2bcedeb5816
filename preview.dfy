/**
 * The companion radio's message preview screen (`MsgPreviewScreen` in
 * examples/companion_radio/ui-new/UITask.cpp): a ring buffer of the 32 latest unread messages,
 * newest at `head`, and a count of unread messages that saturates at 32.
 */
module MsgPreview {
  import opened Common
  import Decimal
  import Labels
  import Text
  import Display
  import opened CompanionScreens

  /** `MAX_UNREAD_MSGS`. */
  const MAX_UNREAD_MSGS: nat := 32

  /** `sizeof(MsgEntry::origin)` and `sizeof(MsgEntry::msg)`: room for 61 and 77 bytes and a NUL. */
  const ORIGIN_SIZE: nat := 62
  const MSG_SIZE: nat := 78

  /**
   * One buffered message: when it arrived (RTC seconds), its origin line and its text, both as
   * the bytes of the C strings up to their NUL.
   */
  datatype MsgEntry = MsgEntry(timestamp: nat, origin: seq<byte>, msg: seq<byte>)

  /** A slot never written yet. */
  const EMPTY_ENTRY := MsgEntry(0, [], [])

  /** The slots of a screen just built: all 32 never written. */
  function BlankSlots(): (s: seq<MsgEntry>)
    ensures |s| == MAX_UNREAD_MSGS && forall i :: 0 <= i < |s| ==> s[i] == EMPTY_ENTRY
  {
    seq(MAX_UNREAD_MSGS, _ => EMPTY_ENTRY)
  }

  /**
   * The origin line: `(D) name:` for a direct message (path length 0xFF), else `(n) name:` with
   * the hop count. The name sits whole just before the closing colon.
   */
  function OriginLabel(pathLen: byte, fromName: seq<byte>): (s: seq<byte>)
    ensures |s| == |fromName| + if pathLen == 0xFF then 5 else |Decimal.FromNat(pathLen as nat)| + 4
    ensures s[|s| - 1] == 58 && s[|s| - 1 - |fromName|..|s| - 1] == fromName
  {
    if pathLen == 0xFF then Text.Ascii("(D) ") + fromName + Text.Ascii(":")
    else Text.Ascii("(" + Decimal.FromNat(pathLen as nat) + ") ") + fromName + Text.Ascii(":")
  }

  /** The origin line tells direct messages from routed ones, and the hop count can be read back. */
  lemma OriginLabelDistinguishes(pathLen: byte, fromName: seq<byte>)
    ensures var s := OriginLabel(pathLen, fromName);
      |s| >= 2 && s[0] == 40 && (s[1] == 68 <==> pathLen == 0xFF)
    ensures pathLen != 0xFF ==>
      var s := OriginLabel(pathLen, fromName);
      var digits := Decimal.FromNat(pathLen as nat);
      Text.Chars(s[1..1 + |digits|]) == digits && Decimal.ToNat(Text.Chars(s[1..1 + |digits|])) == pathLen as nat
  {
    var s := OriginLabel(pathLen, fromName);
    if pathLen == 0xFF {
      assert s[..4] == Text.Ascii("(D) ");
    } else {
      var digits := Decimal.FromNat(pathLen as nat);
      var head := "(" + digits + ") ";
      assert s[..|head|] == Text.Ascii(head);
      assert head[1..1 + |digits|] == digits;
      assert s[1..1 + |digits|] == Text.Ascii(head)[1..1 + |digits|];
      assert forall k :: 0 <= k < |digits| ==> Text.Chars(s[1..1 + |digits|])[k] == digits[k];
      assert Decimal.IsDigit(digits[0]);
      Decimal.ToNatFromNat(pathLen as nat);
    }
  }

  /** The origin line is printable ASCII when the name is. */
  lemma OriginLabelPrintable(pathLen: byte, fromName: seq<byte>)
    requires forall k :: 0 <= k < |fromName| ==> Display.Printable(fromName[k])
    ensures forall k :: 0 <= k < |OriginLabel(pathLen, fromName)| ==> Display.Printable(OriginLabel(pathLen, fromName)[k])
  {
    var head := if pathLen == 0xFF then "(D) " else "(" + Decimal.FromNat(pathLen as nat) + ") ";
    assert forall k :: 1 <= k < |head| - 2 ==> Decimal.IsDigit(head[k]) || pathLen == 0xFF;
    assert forall k :: 0 <= k < |head| ==> 32 <= head[k] as int <= 126;
    assert OriginLabel(pathLen, fromName) == Text.Ascii(head) + fromName + Text.Ascii(":");
  }

  /** `StrHelper::strncpy(p->msg, msg, sizeof(p->msg))`: the text as stored, at most 77 bytes of it. */
  function StoredText(msg: seq<byte>): (t: seq<byte>)
    ensures |t| == Min(|msg|, MSG_SIZE - 1) && t == msg[..|t|]
  {
    if |msg| < MSG_SIZE then msg else msg[..MSG_SIZE - 1]
  }

  /** The entry `addPreview` writes for a message received at `nowSecs`. */
  function PreviewEntry(nowSecs: nat, pathLen: byte, fromName: seq<byte>, msg: seq<byte>): (e: MsgEntry)
    ensures e.timestamp == nowSecs && |e.msg| < MSG_SIZE
  {
    MsgEntry(nowSecs, OriginLabel(pathLen, fromName), StoredText(msg))
  }

  /** The screen's state: the 32 slots, the index of the newest entry, the unread count. */
  datatype PreviewView = PreviewView(slots: seq<MsgEntry>, head: int, numUnread: int)

  /** The shape the screen keeps, and a count between 0 and 32. */
  predicate PreviewInv(v: PreviewView) {
    |v.slots| == MAX_UNREAD_MSGS && 0 <= v.head < MAX_UNREAD_MSGS && 0 <= v.numUnread <= MAX_UNREAD_MSGS
  }

  /** The unread messages, newest first: slot `head`, then backwards around the ring. */
  function Unread(v: PreviewView): (q: seq<MsgEntry>)
    requires PreviewInv(v)
    ensures |q| == v.numUnread
    ensures v.numUnread > 0 ==> q[0] == v.slots[v.head]
  {
    seq(v.numUnread, k requires 0 <= k < v.numUnread => v.slots[(v.head - k) % MAX_UNREAD_MSGS])
  }

  /** `addPreview`: advance `head`, count one more unless already at 32, write the entry at `head`. */
  function Push(v: PreviewView, e: MsgEntry): (r: PreviewView)
    requires 0 <= v.head < |v.slots| == MAX_UNREAD_MSGS
    ensures r.head == (v.head + 1) % MAX_UNREAD_MSGS
    ensures r.numUnread == if v.numUnread < MAX_UNREAD_MSGS then v.numUnread + 1 else v.numUnread
    ensures PreviewInv(v) ==> PreviewInv(r)
  {
    var h := (v.head + 1) % MAX_UNREAD_MSGS;
    PreviewView(v.slots[h := e], h, if v.numUnread < MAX_UNREAD_MSGS then v.numUnread + 1 else v.numUnread)
  }

  /**
   * The new message comes first and the older unread ones follow in order; once 32 are buffered
   * the oldest is overwritten.
   */
  lemma PushUnread(v: PreviewView, e: MsgEntry)
    requires PreviewInv(v)
    ensures Unread(Push(v, e)) == [e] + Unread(v)[..Min(v.numUnread, MAX_UNREAD_MSGS - 1)]
  {
    var r := Push(v, e);
    var prev := Unread(v);
    var want := [e] + prev[..Min(v.numUnread, MAX_UNREAD_MSGS - 1)];
    var got := Unread(r);
    assert |got| == |want|;
    forall k | 0 <= k < |got|
      ensures got[k] == want[k]
    {
      if k > 0 {
        assert (r.head - k) % MAX_UNREAD_MSGS == (v.head - (k - 1)) % MAX_UNREAD_MSGS;
        assert (r.head - k) % MAX_UNREAD_MSGS != r.head;
      }
    }
  }

  /** The first push into a fresh screen (head 31, nothing unread) lands in slot 0. */
  lemma FirstPushSlotZero(slots: seq<MsgEntry>, e: MsgEntry)
    requires |slots| == MAX_UNREAD_MSGS
    ensures var r := Push(PreviewView(slots, MAX_UNREAD_MSGS - 1, 0), e);
      r.head == 0 && r.slots[0] == e && Unread(r) == [e]
  {
  }

  /** The count saturates: 32 unread stay 32, and the buffer still holds the 32 latest. */
  lemma PushSaturates(v: PreviewView, e: MsgEntry)
    requires PreviewInv(v) && v.numUnread == MAX_UNREAD_MSGS
    ensures Push(v, e).numUnread == MAX_UNREAD_MSGS
    ensures Unread(Push(v, e)) == [e] + Unread(v)[..MAX_UNREAD_MSGS - 1]
  {
    PushUnread(v, e);
  }

  /** What `handleInput` does: the new state, its return value, and whether it went to the home screen. */
  datatype PreviewInputResult = PreviewInputResult(view: PreviewView, handled: bool, calls: seq<TaskCall>)

  /**
   * NEXT / RIGHT: `head` steps back one slot, one message fewer is unread, home when none is
   * left. ENTER: all read, home. Anything else: not handled.
   */
  function PreviewInput(v: PreviewView, c: Key): (r: PreviewInputResult)
    requires 0 <= v.head < MAX_UNREAD_MSGS
    ensures 0 <= r.view.head < MAX_UNREAD_MSGS && r.view.slots == v.slots
    ensures r.handled <==> c in {KeyNext, KeyRight, KeyEnter}
    ensures !r.handled ==> r.view == v && r.calls == []
  {
    if c == KeyNext || c == KeyRight then
      var n := v.numUnread - 1;
      PreviewInputResult(PreviewView(v.slots, (v.head + MAX_UNREAD_MSGS - 1) % MAX_UNREAD_MSGS, n),
                         true, if n == 0 then [GotoHome] else [])
    else if c == KeyEnter then
      PreviewInputResult(v.(numUnread := 0), true, [GotoHome])
    else
      PreviewInputResult(v, false, [])
  }

  /** NEXT drops the newest message from the unread list and leaves the rest in order. */
  lemma NextDropsNewest(v: PreviewView, c: Key)
    requires PreviewInv(v) && v.numUnread >= 1 && (c == KeyNext || c == KeyRight)
    ensures var r := PreviewInput(v, c);
      PreviewInv(r.view) && Unread(r.view) == Unread(v)[1..]
      && (r.calls == [GotoHome] <==> v.numUnread == 1)
      && (v.numUnread > 1 ==> r.calls == [])
  {
    var r := PreviewInput(v, c).view;
    forall k | 0 <= k < r.numUnread
      ensures Unread(r)[k] == Unread(v)[k + 1]
    {
      assert (r.head - k) % MAX_UNREAD_MSGS == (v.head - (k + 1)) % MAX_UNREAD_MSGS;
    }
  }

  /** ENTER marks everything read and goes home. */
  lemma EnterClears(v: PreviewView)
    requires PreviewInv(v)
    ensures var r := PreviewInput(v, KeyEnter);
      PreviewInv(r.view) && Unread(r.view) == [] && r.calls == [GotoHome] && r.view.head == v.head
  {
  }

  /** A message added and then read with NEXT leaves the unread list as it was, while fewer than 32 were buffered. */
  lemma PushThenNext(v: PreviewView, e: MsgEntry)
    requires PreviewInv(v) && v.numUnread < MAX_UNREAD_MSGS
    ensures var r := PreviewInput(Push(v, e), KeyNext).view;
      r.head == v.head && r.numUnread == v.numUnread && Unread(r) == Unread(v)
  {
    var a := Push(v, e);
    PushUnread(v, e);
    NextDropsNewest(a, KeyNext);
    assert (a.head + MAX_UNREAD_MSGS - 1) % MAX_UNREAD_MSGS == v.head;
  }

  /**
   * What `render` shows apart from pixels: the header, the age of the newest message, its origin
   * and text as transliterated for the font, and the delay.
   */
  datatype PreviewFrame = PreviewFrame(header: string, age: string, origin: seq<byte>, msg: seq<byte>, delay: nat)

  function PreviewRender(v: PreviewView, nowSecs: nat, ru: bool): (f: PreviewFrame)
    requires 0 <= v.head < |v.slots|
    ensures f.header == "Unread: " + Decimal.FromInt(v.numUnread)
    ensures f.age == Labels.AgeLabel(Labels.AgeSeconds(nowSecs, v.slots[v.head].timestamp))
    ensures f.origin == Display.Blocks(v.slots[v.head].origin, ORIGIN_SIZE, ru)
    ensures f.msg == Display.Blocks(v.slots[v.head].msg, MSG_SIZE, ru)
    ensures f.delay == 1000
  {
    var p := v.slots[v.head];
    PreviewFrame("Unread: " + Decimal.FromInt(v.numUnread),
                 Labels.AgeLabel(Labels.AgeSeconds(nowSecs, p.timestamp)),
                 Display.Blocks(p.origin, ORIGIN_SIZE, ru), Display.Blocks(p.msg, MSG_SIZE, ru), 1000)
  }

  /**
   * Right after a message is added the screen shows it: its age, its origin line and the first 77
   * bytes of its text, each transliterated whole; a printable message that fits is shown as sent,
   * and a longer printable one is cut to its first 77 bytes.
   */
  lemma NewestShown(v: PreviewView, nowSecs: nat, pathLen: byte, fromName: seq<byte>, msg: seq<byte>, ru: bool)
    requires PreviewInv(v)
    ensures var f := PreviewRender(Push(v, PreviewEntry(nowSecs, pathLen, fromName, msg)), nowSecs, ru);
      f.age == "0s"
      && f.msg == Display.Translate(msg[..Min(|msg|, MSG_SIZE - 1)], ru)
      && ((forall k :: 0 <= k < |msg| ==> Display.Printable(msg[k])) ==> f.msg == msg[..Min(|msg|, MSG_SIZE - 1)])
      && ((forall k :: 0 <= k < |fromName| ==> Display.Printable(fromName[k])) && |fromName| <= 54 ==>
            f.origin == OriginLabel(pathLen, fromName))
  {
    var e := PreviewEntry(nowSecs, pathLen, fromName, msg);
    var f := PreviewRender(Push(v, e), nowSecs, ru);
    assert Labels.AgeSeconds(nowSecs, nowSecs) == 0;
    assert Labels.AgeLabel(0) == "0s";
    if forall k :: 0 <= k < |msg| ==> Display.Printable(msg[k]) {
      Display.BlocksPrintable(e.msg, MSG_SIZE, ru);
    }
    if (forall k :: 0 <= k < |fromName| ==> Display.Printable(fromName[k])) && |fromName| <= 54 {
      OriginLabelPrintable(pathLen, fromName);
      Decimal.FromNatShort(pathLen as nat);
      Display.BlocksPrintable(e.origin, ORIGIN_SIZE, ru);
    }
  }

  /** The two `sprintf` calls of `addPreview` that write the origin line. */
  method FormatOrigin(pathLen: byte, fromName: seq<byte>) returns (origin: seq<byte>)
    ensures origin == OriginLabel(pathLen, fromName)
  {
    if pathLen == 0xFF {
      origin := Text.Ascii("(D) ") + fromName + Text.Ascii(":");
    } else {
      origin := Text.Ascii("(" + Decimal.FromNat(pathLen as nat) + ") ") + fromName + Text.Ascii(":");
    }
  }

  /** The screen, with its slots in an array updated in place. */
  class MsgPreviewScreen {
    const unread: array<MsgEntry>
    var head: int
    var numUnread: int

    function View(): PreviewView
      reads this, unread
    {
      PreviewView(unread[..], head, numUnread)
    }

    /** The shape every method keeps (the count itself may go below 0, as the source allows). */
    ghost predicate Valid()
      reads this
    {
      unread.Length == MAX_UNREAD_MSGS && 0 <= head < MAX_UNREAD_MSGS
    }

    /** `num_unread = 0`, `head = MAX_UNREAD_MSGS - 1`. */
    constructor ()
      ensures Valid() && fresh(unread)
      ensures View() == PreviewView(BlankSlots(), MAX_UNREAD_MSGS - 1, 0)
    {
      unread := new MsgEntry[MAX_UNREAD_MSGS](_ => EMPTY_ENTRY);
      head := MAX_UNREAD_MSGS - 1;
      numUnread := 0;
    }

    method AddPreview(pathLen: byte, fromName: seq<byte>, msg: seq<byte>, nowSecs: nat)
      requires Valid()
      modifies this, unread
      ensures Valid()
      ensures View() == Push(old(View()), PreviewEntry(nowSecs, pathLen, fromName, msg))
    {
      head := (head + 1) % MAX_UNREAD_MSGS;
      if numUnread < MAX_UNREAD_MSGS {
        numUnread := numUnread + 1;
      }
      var origin := FormatOrigin(pathLen, fromName);
      var stored := if |msg| < MSG_SIZE then msg else msg[..MSG_SIZE - 1];
      unread[head] := MsgEntry(nowSecs, origin, stored);
    }

    method HandleInput(c: Key) returns (handled: bool, calls: seq<TaskCall>)
      requires Valid()
      modifies this
      ensures Valid()
      ensures var r := PreviewInput(old(View()), c);
        View() == r.view && handled == r.handled && calls == r.calls
    {
      if c == KeyNext || c == KeyRight {
        head := (head + MAX_UNREAD_MSGS - 1) % MAX_UNREAD_MSGS;
        numUnread := numUnread - 1;
        calls := if numUnread == 0 then [GotoHome] else [];
        return true, calls;
      }
      if c == KeyEnter {
        numUnread := 0;
        return true, [GotoHome];
      }
      return false, [];
    }

    method Render(nowSecs: nat, display: Display.DisplayDriver) returns (f: PreviewFrame)
      requires Valid()
      ensures f == PreviewRender(View(), nowSecs, display.ru)
    {
      var p := unread[head];
      var secs := Labels.AgeSeconds(nowSecs, p.timestamp);
      var origin := Display.TranslatedText(p.origin, ORIGIN_SIZE, display.ru);
      var msg := Display.TranslatedText(p.msg, MSG_SIZE, display.ru);
      f := PreviewFrame("Unread: " + Decimal.FromInt(numUnread), Labels.AgeLabel(secs), origin, msg, 1000);
    }
  }
}
