/** Machine types and clock arithmetic shared by every UI variant. */
module Common {

  /** An unsigned 8-bit value (`uint8_t`, `unsigned char`). */
  newtype byte = x: int | 0 <= x < 256

  /** A value that may be absent (a NULL pointer, a search that finds nothing, a frame not drawn). */
  datatype Option<T> = None | Some(value: T)

  /** `millis()` is an `unsigned long` of 32 bits: differences of two readings wrap modulo 2^32. */
  const MILLIS_WRAP: nat := 0x1_0000_0000

  /**
   * `now - since` computed in `unsigned long`: the elapsed time between two clock readings.
   * The clock itself is an unbounded nat in this model; only the subtraction wraps.
   */
  function Elapsed(now: nat, since: nat): (r: nat)
    ensures r < MILLIS_WRAP
    ensures since <= now < since + MILLIS_WRAP ==> r == now - since
    ensures now < since && since - now <= MILLIS_WRAP ==> r == MILLIS_WRAP - (since - now)
  {
    (now - since) % MILLIS_WRAP
  }

  function Min(a: int, b: int): (m: int)
    ensures m <= a && m <= b && (m == a || m == b)
  {
    if a <= b then a else b
  }

  function Max(a: int, b: int): (m: int)
    ensures m >= a && m >= b && (m == a || m == b)
  {
    if a >= b then a else b
  }

  /** C's `/` on `int`: the quotient is truncated toward zero (Dafny's `/` is Euclidean). */
  function CDiv(a: int, b: int): (q: int)
    requires b > 0
    ensures a >= 0 ==> q == a / b
    ensures a < 0 ==> q == -((-a) / b) && q <= 0
  {
    if a >= 0 then a / b else -((-a) / b)
  }

  lemma MulAtLeast(d: int, k: int)
    requires 0 < d && 1 <= k
    ensures d <= d * k
  {
  }

  /** Quotient and remainder are unique: `a = nb * q + r` with `0 <= r < nb` fixes both. */
  lemma DivModUnique(a: int, nb: int, q: int, r: int)
    requires nb > 0 && a == nb * q + r && 0 <= r < nb
    ensures a / nb == q && a % nb == r
  {
    var q2, r2 := a / nb, a % nb;
    assert a == nb * q2 + r2;
    if q2 > q {
      assert nb * (q2 - q) == nb * q2 - nb * q;
      MulAtLeast(nb, q2 - q);
    } else if q2 < q {
      assert nb * (q - q2) == nb * q - nb * q2;
      MulAtLeast(nb, q - q2);
    }
  }

  /**
   * A sum computed in a 32-bit `int`: the two's-complement value congruent to `x` modulo 2^32,
   * which is `x` itself whenever `x` fits.
   */
  function WrapInt32(x: int): (r: int)
    ensures -0x8000_0000 <= r < 0x8000_0000
    ensures (x - r) % MILLIS_WRAP == 0
    ensures -0x8000_0000 <= x < 0x8000_0000 ==> r == x
  {
    WrapFacts(x);
    ToInt32(x % MILLIS_WRAP)
  }

  /** The wrapped value is the only `int` congruent to `x`. */
  lemma WrapUnique(x: int, r: int, q: int)
    requires -0x8000_0000 <= r < 0x8000_0000 && x == MILLIS_WRAP * q + r
    ensures WrapInt32(x) == r
  {
    var w := WrapInt32(x);
    var d := (x - w) / MILLIS_WRAP;
    assert x - w == MILLIS_WRAP * d;
    assert r - w == MILLIS_WRAP * (d - q);
    if d - q > 0 {
      MulAtLeast(MILLIS_WRAP, d - q);
    } else if d - q < 0 {
      MulAtLeast(MILLIS_WRAP, q - d);
    }
  }

  lemma WrapFacts(x: int)
    ensures (x - ToInt32(x % MILLIS_WRAP)) % MILLIS_WRAP == 0
    ensures -0x8000_0000 <= x < 0x8000_0000 ==> ToInt32(x % MILLIS_WRAP) == x
  {
    var u := x % MILLIS_WRAP;
    var q := x / MILLIS_WRAP;
    assert x == MILLIS_WRAP * q + u;
    var r := ToInt32(u);
    if u < 0x8000_0000 {
      DivModUnique(x - r, MILLIS_WRAP, q, 0);
    } else {
      DivModUnique(x - r, MILLIS_WRAP, q + 1, 0);
    }
    if -0x8000_0000 <= x < 0 {
      DivModUnique(x, MILLIS_WRAP, -1, x + MILLIS_WRAP);
    } else if 0 <= x < 0x8000_0000 {
      DivModUnique(x, MILLIS_WRAP, 0, x);
    }
  }

  /** The 32-bit two's-complement reading of an unsigned 32-bit value (`(int)(uint32_t)x`). */
  function ToInt32(u: nat): (r: int)
    requires u < MILLIS_WRAP
    ensures -0x8000_0000 <= r < 0x8000_0000
    ensures r % MILLIS_WRAP == u
  {
    if u < 0x8000_0000 then u else u - MILLIS_WRAP
  }
}

/**
 * Text the firmware formats itself (`sprintf` output and string literals) is a Dafny `string`
 * of ASCII characters; C text that comes from elsewhere (names, message bodies) is bytes.
 */
module Text {
  import opened Common

  /** The bytes C stores for a string: each character's code, taken modulo 256. */
  function Ascii(s: string): (b: seq<byte>)
    ensures |b| == |s|
    ensures forall k :: 0 <= k < |s| && s[k] as int < 256 ==> b[k] as int == s[k] as int
  {
    seq(|s|, k requires 0 <= k < |s| => (s[k] as int % 256) as byte)
  }

  /** The characters of a byte string, one per byte. */
  function Chars(b: seq<byte>): (s: string)
    ensures |s| == |b| && forall k :: 0 <= k < |b| ==> s[k] as int == b[k] as int
  {
    seq(|b|, k requires 0 <= k < |b| => b[k] as int as char)
  }

  /** Reading back the bytes of a string whose characters are all below 256 gives the string. */
  lemma CharsAscii(s: string)
    requires forall k :: 0 <= k < |s| ==> s[k] as int < 256
    ensures Chars(Ascii(s)) == s
  {
    var t := Chars(Ascii(s));
    assert forall k :: 0 <= k < |s| ==> t[k] as int == s[k] as int;
  }

  lemma AsciiConcat(a: string, b: string)
    ensures Ascii(a + b) == Ascii(a) + Ascii(b)
  {
    var l, r := Ascii(a + b), Ascii(a) + Ascii(b);
    forall k | 0 <= k < |l| ensures l[k] == r[k] {
      if k < |a| { assert (a + b)[k] == a[k]; } else { assert (a + b)[k] == b[k - |a|]; }
    }
  }
}

/** Decimal rendering of integers, as `sprintf("%d")` and `sprintf("%u")` print them. */
module Decimal {

  predicate IsDigit(c: char) {
    '0' <= c <= '9'
  }

  function DigitChar(d: nat): (c: char)
    requires d < 10
    ensures IsDigit(c) && c as int - '0' as int == d
  {
    ('0' as int + d) as char
  }

  /** `%u` of `n`: its decimal digits, most significant first, with no leading zero. */
  function FromNat(n: nat): (s: string)
    ensures 1 <= |s|
    ensures forall i :: 0 <= i < |s| ==> IsDigit(s[i])
    ensures 1 < |s| ==> s[0] != '0'
    ensures s[0] == '0' <==> n == 0
    decreases n
  {
    if n < 10 then [DigitChar(n)] else FromNat(n / 10) + [DigitChar(n % 10)]
  }

  /** `%d` of `i`: a minus sign before the digits of a negative value. */
  function FromInt(i: int): (s: string)
    ensures i >= 0 ==> s == FromNat(i)
    ensures i < 0 ==> s == "-" + FromNat(-i)
  {
    if i < 0 then "-" + FromNat(-i) else FromNat(i)
  }

  /** The value of a string of decimal digits: the reading back that FromNat must agree with. */
  function ToNat(s: string): nat
    requires forall i :: 0 <= i < |s| ==> IsDigit(s[i])
  {
    if s == [] then 0
    else
      assert IsDigit(s[|s| - 1]);
      ToNat(s[..|s| - 1]) * 10 + (s[|s| - 1] as int - '0' as int)
  }

  /** Reading the digits of `n` back gives `n`. */
  lemma {:induction false} ToNatFromNat(n: nat)
    ensures ToNat(FromNat(n)) == n
    decreases n
  {
    if n >= 10 {
      var s := FromNat(n);
      assert s[..|s| - 1] == FromNat(n / 10);
      ToNatFromNat(n / 10);
    }
  }

  /** A byte prints in at most three digits. */
  lemma FromNatShort(n: nat)
    requires n < 1000
    ensures |FromNat(n)| <= 3
  {
    if n >= 10 {
      assert |FromNat(n / 10)| <= 2 by {
        if n / 10 >= 10 { assert |FromNat(n / 100)| == 1; }
      }
    }
  }

  /** Different values print differently, so a label determines the value it was printed from. */
  lemma FromNatInjective(m: nat, n: nat)
    requires FromNat(m) == FromNat(n)
    ensures m == n
  {
    ToNatFromNat(m);
    ToNatFromNat(n);
  }
}
