/**
 * The small integer and string helpers the UI variants share or repeat: the clamped battery
 * percentage and the width of the battery icon's fill, the `Ns` / `Nm` / `Nh` age label, and the
 * version string cut at its first dash.
 */
module Labels {
  import opened Common
  import Decimal

  // ---------------------------------------------------------------------------------------
  // Battery gauge

  /** `BATT_MIN_MILLIVOLTS` / `BATT_MAX_MILLIVOLTS` by default, and the repeaters' fixed bounds. */
  const MIN_MILLIVOLTS: int := 3300
  const MAX_MILLIVOLTS: int := 4200

  /** The battery icon is 24 pixels wide; its fill runs inside a one-pixel outline. */
  const ICON_WIDTH: int := 24
  const FILL_MAX: int := ICON_WIDTH - 2

  /**
   * `((mv - min) * 100) / (max - min)` in C `int` arithmetic (the quotient truncated toward zero),
   * clamped first below at 0 and then above at 100.
   */
  function BatteryPercentage(milliVolts: nat, minMv: int, maxMv: int): (pct: int)
    requires minMv < maxMv
    ensures 0 <= pct <= 100
  {
    var raw := CDiv((milliVolts - minMv) * 100, maxMv - minMv);
    var low := if raw < 0 then 0 else raw;
    if low > 100 then 100 else low
  }

  /** `(pct * (iconWidth - 2)) / 100`: a percentage in range gives a fill inside the outline. */
  function FillWidth(pct: int): (w: int)
    requires 0 <= pct <= 100
    ensures 0 <= w <= FILL_MAX
    ensures pct == 0 ==> w == 0
    ensures pct == 100 ==> w == FILL_MAX
  {
    (pct * FILL_MAX) / 100
  }

  lemma DivMonotone(a: int, b: int, d: int)
    requires 0 < d && a <= b
    ensures a / d <= b / d
  {
    var qa, qb := a / d, b / d;
    assert a == d * qa + a % d && b == d * qb + b % d;
    if qa > qb {
      assert d * qa - d * qb == d * (qa - qb);
      MulAtLeast(d, qa - qb);
    }
  }

  /** The quotient of a non-negative dividend is bracketed by the dividend. */
  lemma DivBracket(x: int, d: int)
    requires 0 <= x && 0 < d
    ensures d * (x / d) <= x < d * (x / d) + d
  {
    assert x == d * (x / d) + x % d;
  }

  /** A full-scale reading: the percentage before clamping is at least 100. */
  lemma AboveFullScale(x: int, d: int)
    requires 0 < d && 100 * d <= x
    ensures 100 <= x / d
  {
    assert (100 * d) / d == 100;
    DivMonotone(100 * d, x, d);
  }

  /** A reading in range: the quotient is the rounded-down percentage and at most 100. */
  lemma InScale(x: int, d: int)
    requires 0 < d && 0 <= x <= 100 * d
    ensures 0 <= x / d <= 100
    ensures d * (x / d) <= x < d * (x / d) + d
  {
    DivBracket(x, d);
    assert (100 * d) / d == 100;
    DivMonotone(x, 100 * d, d);
  }

  /**
   * Below the lower bound the gauge reads 0 and from the upper bound on it reads 100; in between it
   * is the linear percentage rounded down.
   */
  lemma BatteryPercentageLinear(milliVolts: nat, minMv: int, maxMv: int)
    requires minMv < maxMv
    ensures milliVolts <= minMv ==> BatteryPercentage(milliVolts, minMv, maxMv) == 0
    ensures milliVolts >= maxMv ==> BatteryPercentage(milliVolts, minMv, maxMv) == 100
    ensures minMv <= milliVolts <= maxMv ==>
      var pct := BatteryPercentage(milliVolts, minMv, maxMv);
      pct * (maxMv - minMv) <= (milliVolts - minMv) * 100 < (pct + 1) * (maxMv - minMv)
  {
    var d := maxMv - minMv;
    var x := (milliVolts - minMv) * 100;
    if milliVolts >= maxMv {
      assert x >= 100 * d;
      AboveFullScale(x, d);
    }
    if minMv <= milliVolts <= maxMv {
      assert 0 <= x <= 100 * d;
      InScale(x, d);
      var pct := BatteryPercentage(milliVolts, minMv, maxMv);
      assert pct == x / d;
      assert pct * d == d * (x / d);
      assert (pct + 1) * d == d * (x / d) + d;
    }
  }

  /** More charge never shows a lower percentage or a shorter fill. */
  lemma BatteryMonotone(mv1: nat, mv2: nat, minMv: int, maxMv: int)
    requires minMv < maxMv && mv1 <= mv2
    ensures BatteryPercentage(mv1, minMv, maxMv) <= BatteryPercentage(mv2, minMv, maxMv)
    ensures FillWidth(BatteryPercentage(mv1, minMv, maxMv)) <= FillWidth(BatteryPercentage(mv2, minMv, maxMv))
  {
    var d := maxMv - minMv;
    if minMv <= mv1 {
      assert (mv1 - minMv) * 100 <= (mv2 - minMv) * 100;
      DivMonotone((mv1 - minMv) * 100, (mv2 - minMv) * 100, d);
    } else {
      BatteryPercentageLinear(mv1, minMv, maxMv);
    }
    var p1, p2 := BatteryPercentage(mv1, minMv, maxMv), BatteryPercentage(mv2, minMv, maxMv);
    assert p1 * FILL_MAX <= p2 * FILL_MAX;
    DivMonotone(p1 * FILL_MAX, p2 * FILL_MAX, 100);
  }

  // ---------------------------------------------------------------------------------------
  // Age label

  /**
   * The age in seconds as the screens compute it: the `uint32_t` clock difference read as `int`.
   * A timestamp later than the clock gives a negative age.
   */
  function AgeSeconds(nowSecs: nat, stampSecs: nat): (secs: int)
    ensures stampSecs <= nowSecs < stampSecs + 0x8000_0000 ==> secs == nowSecs - stampSecs
    ensures nowSecs < stampSecs <= nowSecs + 0x8000_0000 ==> secs == nowSecs - stampSecs
  {
    ToInt32(Elapsed(nowSecs, stampSecs))
  }

  /** The number and unit the label shows: seconds below a minute, minutes below an hour, else hours. */
  datatype Age = Age(value: int, unit: char)

  function AgeOf(secs: int): (a: Age)
    ensures secs < 60 ==> a == Age(secs, 's')
    ensures 60 <= secs < 3600 ==>
      (a.unit == 'm' && 1 <= a.value < 60 && a.value * 60 <= secs < (a.value + 1) * 60)
    ensures 3600 <= secs ==>
      (a.unit == 'h' && 1 <= a.value && a.value * 3600 <= secs < (a.value + 1) * 3600)
  {
    if secs < 60 then Age(secs, 's')
    else if secs < 60 * 60 then Age(secs / 60, 'm')
    else Age(secs / (60 * 60), 'h')
  }

  /** `sprintf(tmp, "%ds" / "%dm" / "%dh", …)` of the age. */
  function AgeLabel(secs: int): (text: string)
    ensures 2 <= |text| && text[|text| - 1] == AgeOf(secs).unit
    ensures secs < 0 <==> text[0] == '-'
  {
    var a := AgeOf(secs);
    Decimal.FromInt(a.value) + [a.unit]
  }

  /**
   * A label for a non-negative age reads back as the age rounded down to its unit: the digits
   * before the unit letter give `value`, and `value` units never exceed the age.
   */
  lemma AgeLabelReadsBack(secs: int)
    requires 0 <= secs
    ensures var text := AgeLabel(secs);
      var digits := text[..|text| - 1];
      (forall i :: 0 <= i < |digits| ==> Decimal.IsDigit(digits[i]))
      && var n := Decimal.ToNat(digits);
      var size := if text[|text| - 1] == 's' then 1 else if text[|text| - 1] == 'm' then 60 else 3600;
      n * size <= secs < (n + 1) * size
  {
    var a := AgeOf(secs);
    var text := AgeLabel(secs);
    assert text[..|text| - 1] == Decimal.FromNat(a.value);
    Decimal.ToNatFromNat(a.value);
  }

  /** A future timestamp gives a negative seconds label: the sign shows the clock skew. */
  lemma FutureStampLabel(nowSecs: nat, stampSecs: nat)
    requires nowSecs < stampSecs <= nowSecs + 0x8000_0000
    ensures AgeLabel(AgeSeconds(nowSecs, stampSecs)) == "-" + Decimal.FromNat(stampSecs - nowSecs) + "s"
  {
  }

  // ---------------------------------------------------------------------------------------
  // Version string

  /** The version up to, not including, its first '-'; all of it when it has none (`strchr` on '-'). */
  function UpToDash(v: string): (r: string)
    ensures r <= v && '-' !in r
    ensures |r| < |v| ==> v[|r|] == '-'
  {
    if v == [] || v[0] == '-' then [] else [v[0]] + UpToDash(v[1..])
  }

  /**
   * The version the companion splash screen shows: up to the first dash, then at most 11 bytes so
   * that it fits `_version_info[12]` with its NUL.
   */
  function SplashVersion(v: string): (r: string)
    ensures |r| <= 11 && r <= UpToDash(v)
    ensures |UpToDash(v)| <= 11 ==> r == UpToDash(v)
  {
    var t := UpToDash(v);
    if |t| >= 12 then t[..11] else t
  }

  /** The size of the simple repeater's `_version_info`. */
  const REPEATER_VERSION_SIZE: nat := 32

  /**
   * The text the simple repeater's `begin` writes into `_version_info[32]` with `sprintf("%s")`:
   * everything before the first dash, however long.
   */
  function RepeaterVersionAsWritten(v: string): (r: string)
    ensures r <= v && '-' !in r
    ensures |r| < |v| ==> v[|r|] == '-'
  {
    UpToDash(v)
  }

  /** A version of 40 characters without a dash needs 41 bytes in a 32-byte buffer. */
  lemma RepeaterVersionOverflowWitness()
    ensures |RepeaterVersionAsWritten(seq(40, _ => '1'))| + 1 > REPEATER_VERSION_SIZE
  {
  }

  /** The version with the buffer bound kept, as the companion splash screen does for its own buffer. */
  function RepeaterVersion(v: string): (r: string)
    ensures |r| < REPEATER_VERSION_SIZE && r <= RepeaterVersionAsWritten(v)
    ensures |RepeaterVersionAsWritten(v)| < REPEATER_VERSION_SIZE ==> r == RepeaterVersionAsWritten(v)
  {
    var t := UpToDash(v);
    if |t| >= REPEATER_VERSION_SIZE then t[..REPEATER_VERSION_SIZE - 1] else t
  }
}
