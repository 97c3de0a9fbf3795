/** The JavaScript string conversions the portal relies on: `String(n)` for integers,
    `padStart`, `slice(-k)`, `parseInt` without a radix and the `||` fallback on strings. */
module Text {
  import opened Options

  /** A JavaScript number as the portal uses it: an integer or NaN. */
  datatype Num = Int(v: int) | NaN

  predicate IsDigit(c: char) { '0' <= c <= '9' }

  predicate AllDigits(s: string) { forall i :: 0 <= i < |s| ==> IsDigit(s[i]) }

  function DigitChar(d: nat): (c: char)
    requires d < 10
    ensures IsDigit(c) && DigitValue(c) == d
  {
    (48 + d) as char
  }

  function DigitValue(c: char): (d: nat)
    requires IsDigit(c)
    ensures d < 10
  {
    c as int - 48
  }

  /** `String(n)` for a non-negative integer: its decimal digits, without leading zeros. */
  function NatToString(n: nat): (s: string)
    ensures 1 <= |s|
    ensures AllDigits(s)
    ensures s[0] == '0' ==> n == 0 && |s| == 1
  {
    if n < 10 then [DigitChar(n)] else NatToString(n / 10) + [DigitChar(n % 10)]
  }

  /** The value of a run of decimal digits, read left to right. */
  function DigitsValue(s: string): nat
    requires AllDigits(s)
  {
    if s == [] then 0 else DigitsValue(s[..|s| - 1]) * 10 + DigitValue(s[|s| - 1])
  }

  /** Reading back the digits of `String(n)` gives `n`. */
  lemma {:induction false} NatToStringValue(n: nat)
    ensures DigitsValue(NatToString(n)) == n
  {
    if n >= 10 {
      var s := NatToString(n);
      assert s[..|s| - 1] == NatToString(n / 10);
      NatToStringValue(n / 10);
    }
  }

  /** `String(i)` for any integer: a minus sign before the digits of a negative one. */
  function IntToString(i: int): string
  {
    if i < 0 then "-" + NatToString(-i) else NatToString(i)
  }

  /** `s.padStart(width, pad)`: `pad` repeated on the left up to `width` characters. */
  function PadStart(s: string, width: nat, pad: char): (r: string)
    ensures |r| == if |s| < width then width else |s|
    ensures r[|r| - |s|..] == s
    ensures forall i :: 0 <= i < |r| - |s| ==> r[i] == pad
  {
    if |s| < width then seq(width - |s|, _ => pad) + s else s
  }

  /** `String(n).padStart(2, "0")`. */
  function Pad2(n: int): string
  {
    PadStart(IntToString(n), 2, '0')
  }

  /** Two decimal digits, tens first. */
  function TwoDigits(n: int): (s: string)
    requires 0 <= n < 100
    ensures |s| == 2 && AllDigits(s) && DigitsValue(s) == n
  {
    var s := [DigitChar(n / 10), DigitChar(n % 10)];
    assert s[..1] == [DigitChar(n / 10)] && s[..1][..0] == [];
    assert DigitsValue(s[..1]) == n / 10;
    s
  }

  /** For 0..99, `String(n).padStart(2, "0")` is exactly the two digits of `n`. */
  lemma Pad2Closed(n: int)
    requires 0 <= n < 100
    ensures Pad2(n) == TwoDigits(n)
  {
    if n < 10 {
      assert Pad2(n) == ['0', DigitChar(n)];
    } else {
      assert NatToString(n) == [DigitChar(n / 10), DigitChar(n % 10)];
    }
  }

  /** Different numbers below 100 have different two-digit forms. */
  lemma TwoDigitsInjective(m: int, n: int)
    requires 0 <= m < 100 && 0 <= n < 100 && m != n
    ensures TwoDigits(m) != TwoDigits(n)
  {
  }

  /** `s.slice(-k)` for k > 0: the last `k` characters, or all of `s` when it is shorter. */
  function LastChars(s: string, k: nat): (r: string)
    ensures |r| == if |s| < k then |s| else k
    ensures r == s[|s| - |r|..]
  {
    if |s| <= k then s else s[|s| - k..]
  }

  function Pow10(k: nat): (p: nat)
    ensures p >= 1
  {
    if k == 0 then 1 else 10 * Pow10(k - 1)
  }

  lemma ModUnique(x: int, m: int, q: int, r: int)
    requires m > 0 && x == q * m + r && 0 <= r < m
    ensures x % m == r
  {
    var q2, r2 := x / m, x % m;
    assert x == q2 * m + r2;
    var k := q - q2;
    assert k * m == r2 - r;
    if k >= 1 {
      MulAtLeast(k, m);
    } else if k <= -1 {
      MulAtLeast(-k, m);
    }
  }

  lemma MulAtLeast(k: int, m: int)
    requires k >= 1 && m > 0
    ensures k * m >= m
  {
    assert k * m == (k - 1) * m + m;
  }

  /** Appending a digit `d` to `a` and keeping one more trailing digit. */
  lemma ModStep(a: nat, p: nat, d: nat)
    requires p >= 1 && d < 10
    ensures (a * 10 + d) % (10 * p) == (a % p) * 10 + d
  {
    var q, r := a / p, a % p;
    assert a == q * p + r;
    assert a * 10 + d == q * (10 * p) + (r * 10 + d);
    assert r * 10 + d < 10 * p by {
      assert r <= p - 1;
      assert r * 10 <= (p - 1) * 10;
    }
    ModUnique(a * 10 + d, 10 * p, q, r * 10 + d);
  }

  /** The last `k` characters of a digit run read back as its value modulo 10^k. */
  lemma {:induction false} LastDigitsValue(s: string, k: nat)
    requires AllDigits(s) && k <= |s|
    ensures DigitsValue(s[|s| - k..]) == DigitsValue(s) % Pow10(k)
  {
    if k > 0 {
      var init := s[..|s| - 1];
      var t := s[|s| - k..];
      assert t[..|t| - 1] == init[|init| - (k - 1)..];
      assert t[|t| - 1] == s[|s| - 1];
      LastDigitsValue(init, k - 1);
      ModStep(DigitsValue(init), Pow10(k - 1), DigitValue(s[|s| - 1]));
    }
  }

  /** A run of `n` digits is worth less than 10^n. */
  lemma {:induction false} DigitsBound(s: string)
    requires AllDigits(s)
    ensures DigitsValue(s) < Pow10(|s|)
  {
    if s != [] {
      DigitsBound(s[..|s| - 1]);
    }
  }

  lemma {:induction false} Pow10Monotone(j: nat, k: nat)
    requires j <= k
    ensures Pow10(j) <= Pow10(k)
  {
    if j < k {
      Pow10Monotone(j, k - 1);
    }
  }

  /** The last `k` characters of a digit run, or all of it when shorter, read back as its value
      modulo 10^k. */
  lemma LastCharsValue(s: string, k: nat)
    requires AllDigits(s) && k >= 1
    ensures AllDigits(LastChars(s, k))
    ensures DigitsValue(LastChars(s, k)) == DigitsValue(s) % Pow10(k)
  {
    if |s| <= k {
      DigitsBound(s);
      Pow10Monotone(|s|, k);
      ModUnique(DigitsValue(s), Pow10(k), 0, DigitsValue(s));
    } else {
      LastDigitsValue(s, k);
    }
  }

  /** `String(n).slice(-k)` reads back as `n` modulo 10^k. */
  lemma LastDigitsOfNat(n: nat, k: nat)
    requires k >= 1
    ensures AllDigits(LastChars(NatToString(n), k))
    ensures DigitsValue(LastChars(NatToString(n), k)) == n % Pow10(k)
  {
    NatToStringValue(n);
    LastCharsValue(NatToString(n), k);
  }

  /** `s || fallback` for a string that may be missing: missing or empty falls back. */
  function OrDefault(s: Option<string>, fallback: string): (r: string)
    ensures r == fallback || (s.Some? && r == s.value && r != "")
    ensures s.Some? && s.value != "" ==> r == s.value
  {
    if s.Some? && s.value != "" then s.value else fallback
  }

  // ---------------------------------------------------------------------------
  // parseInt(s) with no radix argument (ECMAScript, section 19.2.5 of ECMA-262)
  // ---------------------------------------------------------------------------

  /** The characters `parseInt` skips before the number (white space and line terminators). */
  predicate IsJsWhiteSpace(c: char)
  {
    c == '\t' || c == '\n' || c == '\U{B}' || c == '\U{C}' || c == '\r' || c == ' '
    || c == '\U{A0}' || c == '\U{1680}' || ('\U{2000}' <= c <= '\U{200A}')
    || c == '\U{2028}' || c == '\U{2029}' || c == '\U{202F}' || c == '\U{205F}'
    || c == '\U{3000}' || c == '\U{FEFF}'
  }

  function TrimStart(s: string): (r: string)
    ensures r == [] || !IsJsWhiteSpace(r[0])
    ensures |r| <= |s| && r == s[|s| - |r|..]
  {
    if s != [] && IsJsWhiteSpace(s[0]) then TrimStart(s[1..]) else s
  }

  /** The value of `c` as a digit in base 10 or 16, if it is one. */
  function DigitIn(c: char, radix: nat): Option<nat>
  {
    if '0' <= c <= '9' then Some(c as int - 48)
    else if radix == 16 && 'a' <= c <= 'f' then Some(c as int - 87)
    else if radix == 16 && 'A' <= c <= 'F' then Some(c as int - 55)
    else None
  }

  predicate AllIn(s: string, radix: nat) { forall i :: 0 <= i < |s| ==> DigitIn(s[i], radix).Some? }

  /** Length of the longest prefix of `s` made of digits of the radix. */
  function RunLength(s: string, radix: nat): (n: nat)
    ensures n <= |s| && AllIn(s[..n], radix)
    ensures n < |s| ==> DigitIn(s[n], radix).None?
  {
    if s != [] && DigitIn(s[0], radix).Some? then 1 + RunLength(s[1..], radix) else 0
  }

  function RadixValue(s: string, radix: nat): nat
    requires AllIn(s, radix)
  {
    if s == [] then 0 else RadixValue(s[..|s| - 1], radix) * radix + DigitIn(s[|s| - 1], radix).value
  }

  /** The unsigned part of `parseInt`: base 16 after a `0x`/`0X` prefix, otherwise base 10,
      then the longest run of digits; no digits at all is NaN. */
  function ParseMagnitude(u: string): Option<nat>
  {
    var radix := if |u| >= 2 && u[0] == '0' && (u[1] == 'x' || u[1] == 'X') then 16 else 10;
    var w := if radix == 16 then u[2..] else u;
    var z := w[..RunLength(w, radix)];
    if z == [] then None else Some(RadixValue(z, radix))
  }

  /** `parseInt(s)`: skip leading white space, then read a signed number. */
  function ParseInt(s: string): Num
  {
    ParseSigned(TrimStart(s))
  }

  /** An optional sign, then the magnitude. */
  function ParseSigned(t: string): Num
  {
    var negative := t != [] && t[0] == '-';
    var u := if t != [] && (t[0] == '-' || t[0] == '+') then t[1..] else t;
    match ParseMagnitude(u)
    case None => NaN
    case Some(m) => Int(if negative then -(m as int) else m)
  }

  lemma {:induction false} DecimalValue(s: string)
    requires AllDigits(s)
    ensures AllIn(s, 10) && RadixValue(s, 10) == DigitsValue(s)
  {
    if s != [] {
      DecimalValue(s[..|s| - 1]);
    }
  }

  lemma {:induction false} RunOfDigits(s: string)
    requires AllDigits(s)
    ensures RunLength(s, 10) == |s|
  {
    if s != [] {
      assert AllDigits(s[1..]);
      RunOfDigits(s[1..]);
    }
  }

  lemma MagnitudeOfDigits(m: nat)
    ensures ParseMagnitude(NatToString(m)) == Some(m)
  {
    var d := NatToString(m);
    RunOfDigits(d);
    DecimalValue(d);
    NatToStringValue(m);
    assert d[..|d|] == d;
  }

  /** Nothing is skipped before a first character that is not white space. */
  lemma TrimStartStops(s: string)
    requires s != [] && !IsJsWhiteSpace(s[0])
    ensures TrimStart(s) == s
  {
  }

  lemma ParseIntOfNatText(m: nat)
    ensures ParseInt(NatToString(m)) == Int(m)
  {
    var d := NatToString(m);
    assert ParseSigned(d) == Int(m) by {
      assert '0' <= d[0] <= '9';
      MagnitudeOfDigits(m);
    }
    TrimStartStops(d);
  }

  lemma ParseIntOfNegativeText(m: nat)
    ensures ParseInt("-" + NatToString(m)) == Int(-(m as int))
  {
    var s := "-" + NatToString(m);
    assert ParseSigned(s) == Int(-(m as int)) by {
      assert s[1..] == NatToString(m);
      MagnitudeOfDigits(m);
    }
    TrimStartStops(s);
  }

  /** `parseInt(String(n)) === n` for every integer `n`. */
  lemma ParseIntRoundTrip(n: int)
    ensures ParseInt(IntToString(n)) == Int(n)
  {
    if n < 0 {
      ParseIntOfNegativeText(-n);
    } else {
      ParseIntOfNatText(n);
    }
  }
}
