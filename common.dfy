/** Small value-level helpers shared by the whole model: an Option type and
    the few JavaScript string operations the app relies on (`trim`, `join`,
    `Number.prototype.toString`, `padStart(2, "0")`, `parseInt` on digits). */
module Common {

  datatype Option<+T> = None | Some(value: T)

  /** `a || b` on a possibly-missing string: JavaScript treats `null`,
      `undefined` and `""` as falsy. */
  predicate Present(s: Option<string>) {
    s.Some? && s.value != ""
  }

  // ---------------------------------------------------------------------
  // String.prototype.trim

  /** The ECMAScript WhiteSpace and LineTerminator code points, which is
      exactly what `trim` strips. */
  predicate IsWhitespace(c: char) {
    c == '\t' || c == '\n' || c == '\U{000B}' || c == '\U{000C}' || c == '\r' ||
    c == ' ' || c == '\U{00A0}' || c == '\U{1680}' ||
    ('\U{2000}' <= c <= '\U{200A}') ||
    c == '\U{2028}' || c == '\U{2029}' || c == '\U{202F}' || c == '\U{205F}' ||
    c == '\U{3000}' || c == '\U{FEFF}'
  }

  predicate AllWhitespace(s: string) {
    forall i :: 0 <= i < |s| ==> IsWhitespace(s[i])
  }

  /** Drops leading whitespace; the result is a suffix of `s`. */
  function TrimStart(s: string): (r: string)
    ensures |r| <= |s| && r == s[|s| - |r|..]
    ensures r == [] || !IsWhitespace(r[0])
  {
    if |s| > 0 && IsWhitespace(s[0]) then TrimStart(s[1..]) else s
  }

  /** Drops trailing whitespace; the result is a prefix of `s`. */
  function TrimEnd(s: string): (r: string)
    ensures |r| <= |s| && r == s[..|r|]
    ensures r == [] || !IsWhitespace(r[|r| - 1])
  {
    if |s| > 0 && IsWhitespace(s[|s| - 1]) then TrimEnd(s[..|s| - 1]) else s
  }

  function Trim(s: string): (r: string)
    ensures |r| <= |s|
    ensures r == [] || (!IsWhitespace(r[0]) && !IsWhitespace(r[|r| - 1]))
  {
    TrimEnd(TrimStart(s))
  }

  lemma {:induction false} TrimStartEmpty(s: string)
    ensures TrimStart(s) == [] <==> AllWhitespace(s)
    decreases |s|
  {
    if |s| > 0 && IsWhitespace(s[0]) {
      TrimStartEmpty(s[1..]);
      assert AllWhitespace(s[1..]) ==> AllWhitespace(s) by {
        if AllWhitespace(s[1..]) {
          forall i | 0 <= i < |s| ensures IsWhitespace(s[i]) {
            if i > 0 { assert s[i] == s[1..][i - 1]; }
          }
        }
      }
    }
  }

  lemma {:induction false} TrimEndEmpty(s: string)
    ensures TrimEnd(s) == [] <==> AllWhitespace(s)
    decreases |s|
  {
    if |s| > 0 && IsWhitespace(s[|s| - 1]) {
      TrimEndEmpty(s[..|s| - 1]);
      assert AllWhitespace(s[..|s| - 1]) ==> AllWhitespace(s) by {
        if AllWhitespace(s[..|s| - 1]) {
          forall i | 0 <= i < |s| ensures IsWhitespace(s[i]) {
            if i < |s| - 1 { assert s[i] == s[..|s| - 1][i]; }
          }
        }
      }
    }
  }

  /** `s.trim()` is empty (falsy) exactly when `s` is made of whitespace. */
  lemma TrimEmptyIffBlank(s: string)
    ensures Trim(s) == [] <==> AllWhitespace(s)
  {
    TrimStartEmpty(s);
    TrimEndEmpty(TrimStart(s));
  }

  /** No element occurs twice. */
  predicate Distinct<T(==)>(s: seq<T>) {
    forall i, j :: 0 <= i < j < |s| ==> s[i] != s[j]
  }

  /** `if (fired) list.push(text)`. */
  function PushIf<T>(list: seq<T>, fired: bool, text: T): seq<T> {
    if fired then list + [text] else list
  }

  // ---------------------------------------------------------------------
  // Array.prototype.join

  function Join(xs: seq<string>, sep: string): (r: string)
    ensures |xs| == 1 ==> r == xs[0]
    ensures |xs| == 0 ==> r == ""
  {
    if |xs| == 0 then ""
    else if |xs| == 1 then xs[0]
    else xs[0] + sep + Join(xs[1..], sep)
  }

  // ---------------------------------------------------------------------
  // UTF-16 lengths: a Dafny `string` is a sequence of code points, while
  // JavaScript's `length` and `substring` count UTF-16 code units, and a
  // code point above U+FFFF takes two of them (a surrogate pair).

  function Utf16Units(c: char): nat {
    if c as int > 0xFFFF then 2 else 1
  }

  /** `s.length` in JavaScript. */
  function Utf16Length(s: string): (n: nat)
    ensures |s| <= n <= 2 * |s|
  {
    if s == [] then 0 else Utf16Units(s[0]) + Utf16Length(s[1..])
  }

  /** No code point needs a surrogate pair. */
  predicate InBmp(s: string) {
    forall i :: 0 <= i < |s| ==> s[i] as int <= 0xFFFF
  }

  /** The two lengths agree exactly when no code point needs a surrogate pair. */
  lemma {:induction false} Utf16LengthBmp(s: string)
    ensures Utf16Length(s) == |s| <==> InBmp(s)
    decreases |s|
  {
    if s != [] {
      Utf16LengthBmp(s[1..]);
      assert InBmp(s) <==> s[0] as int <= 0xFFFF && InBmp(s[1..]) by {
        if s[0] as int <= 0xFFFF && InBmp(s[1..]) {
          forall i | 0 <= i < |s| ensures s[i] as int <= 0xFFFF {
            if i > 0 { assert s[i] == s[1..][i - 1]; }
          }
        }
      }
    }
  }

  /** The UTF-16 code units of one code point. */
  function UnitsOf(c: char): (u: seq<int>)
    ensures |u| == Utf16Units(c)
    ensures c as int <= 0xFFFF ==> u == [c as int]
    ensures c as int > 0xFFFF ==> 0xD800 <= u[0] < 0xDC00 <= u[1] < 0xE000
  {
    var v := c as int;
    if v > 0xFFFF then
      assert v <= 0x10FFFF;
      SurrogateHalves(v - 0x10000);
      [0xD800 + (v - 0x10000) / 0x400, 0xDC00 + (v - 0x10000) % 0x400]
    else [v]
  }

  lemma SurrogateHalves(w: int)
    requires 0 <= w < 0x100000
    ensures 0 <= w / 0x400 < 0x400 && 0 <= w % 0x400 < 0x400
  {
  }

  /** The UTF-16 encoding of `s`: the units JavaScript sees. */
  function Units(s: string): (u: seq<int>)
    ensures |u| == Utf16Length(s)
  {
    if s == [] then [] else UnitsOf(s[0]) + Units(s[1..])
  }

  lemma {:induction false} InBmpConcat(a: string, b: string)
    ensures InBmp(a + b) <==> InBmp(a) && InBmp(b)
  {
    if InBmp(a) && InBmp(b) {
      forall i | 0 <= i < |a + b| ensures (a + b)[i] as int <= 0xFFFF {
        if i >= |a| { assert (a + b)[i] == b[i - |a|]; }
      }
    }
    if InBmp(a + b) {
      forall i | 0 <= i < |a| ensures a[i] as int <= 0xFFFF {
        assert (a + b)[i] == a[i];
      }
      forall i | 0 <= i < |b| ensures b[i] as int <= 0xFFFF {
        assert (a + b)[|a| + i] == b[i];
      }
    }
  }

  /** The longest prefix of whole code points that fits in `budget` UTF-16
      units. */
  function TakeUnits(s: string, budget: nat): (r: string)
    ensures |r| <= |s| && r == s[..|r|]
    ensures Utf16Length(r) <= budget
    ensures |r| < |s| ==> Utf16Length(r) + Utf16Units(s[|r|]) > budget
  {
    if s == [] || Utf16Units(s[0]) > budget then []
    else
      var rest := TakeUnits(s[1..], budget - Utf16Units(s[0]));
      assert ([s[0]] + rest)[1..] == rest;
      assert s[..|rest| + 1] == [s[0]] + s[1..][..|rest|];
      [s[0]] + rest
  }

  /** Without surrogate pairs, taking units is taking characters. */
  lemma {:induction false} TakeUnitsBmp(s: string, budget: nat)
    requires InBmp(s)
    ensures TakeUnits(s, budget) == s[..if |s| < budget then |s| else budget]
    decreases |s|
  {
    if s != [] && budget > 0 {
      assert InBmp(s[1..]) by {
        forall i | 0 <= i < |s[1..]| ensures s[1..][i] as int <= 0xFFFF {
          assert s[1..][i] == s[i + 1];
        }
      }
      TakeUnitsBmp(s[1..], budget - 1);
    }
  }

  // ---------------------------------------------------------------------
  // Decimal rendering and parsing

  predicate IsDigit(c: char) {
    '0' <= c <= '9'
  }

  predicate AllDigits(s: string) {
    forall i :: 0 <= i < |s| ==> IsDigit(s[i])
  }

  function DigitChar(d: nat): (c: char)
    requires d < 10
    ensures IsDigit(c)
  {
    (48 + d) as char
  }

  function DigitValue(c: char): (d: nat)
    requires IsDigit(c)
    ensures d < 10 && DigitChar(d) == c
  {
    c as int - 48
  }

  /** `n.toString()` for a non-negative integer: shortest decimal form. */
  function NatToString(n: nat): (r: string)
    ensures |r| >= 1 && AllDigits(r)
    ensures r[0] == '0' ==> n == 0
    decreases n
  {
    if n < 10 then [DigitChar(n)]
    else NatToString(n / 10) + [DigitChar(n % 10)]
  }

  /** `i.toString()` for any integer. */
  function IntToString(i: int): string {
    if i < 0 then "-" + NatToString(-i) else NatToString(i)
  }

  /** `Number.parseInt(s)` on a string of decimal digits (leading zeros allowed). */
  function DigitsValue(s: string): nat
    requires AllDigits(s)
  {
    if s == [] then 0
    else DigitsValue(s[..|s| - 1]) * 10 + DigitValue(s[|s| - 1])
  }

  /** Rendering then parsing a natural number gives it back. */
  lemma {:induction false} NatToStringRoundTrip(n: nat)
    ensures DigitsValue(NatToString(n)) == n
    decreases n
  {
    var r := NatToString(n);
    if n >= 10 {
      NatToStringRoundTrip(n / 10);
      assert r[..|r| - 1] == NatToString(n / 10);
    }
  }

  function Pow10(n: nat): (p: nat)
    ensures p >= 1
  {
    if n == 0 then 1 else 10 * Pow10(n - 1)
  }

  /** A numeral of `n` digits is below `10^n`. */
  lemma {:induction false} DigitsValueBound(s: string)
    requires AllDigits(s)
    ensures DigitsValue(s) < Pow10(|s|)
    decreases |s|
  {
    if s != [] {
      DigitsValueBound(s[..|s| - 1]);
    }
  }

  /** Reading a numeral from its first digit: the leading digit weighs
      `10^(digits after it)`. */
  lemma {:induction false} DigitsValueCons(c: char, s: string)
    requires IsDigit(c) && AllDigits(s)
    ensures AllDigits([c] + s)
    ensures DigitsValue([c] + s) == DigitValue(c) * Pow10(|s|) + DigitsValue(s)
    decreases |s|
  {
    var u := [c] + s;
    if s != [] {
      var init := s[..|s| - 1];
      assert u[..|u| - 1] == [c] + init;
      DigitsValueCons(c, init);
      ShiftDigit(DigitValue(c), Pow10(|init|), DigitsValue(init), DigitValue(s[|s| - 1]));
    } else {
      assert u[..|u| - 1] == [];
    }
  }

  /** Appending a digit to `a * p + b` multiplies both parts by ten. */
  lemma ShiftDigit(a: nat, p: nat, b: nat, e: nat)
    ensures (a * p + b) * 10 + e == a * (10 * p) + (b * 10 + e)
  {
  }

  /** Years from 1000 to 9999 have four digits. */
  lemma NatToStringLength4(n: nat)
    requires 1000 <= n <= 9999
    ensures |NatToString(n)| == 4
  {
    var a, b, c := n / 10, n / 10 / 10, n / 10 / 10 / 10;
    assert 100 <= a <= 999 && 10 <= b <= 99 && 1 <= c <= 9;
    assert |NatToString(c)| == 1;
    assert |NatToString(b)| == |NatToString(c)| + 1;
    assert |NatToString(a)| == |NatToString(b)| + 1;
    assert |NatToString(n)| == |NatToString(a)| + 1;
  }

  /** `s.padStart(2, "0")`. */
  function PadStart2(s: string): (r: string)
    ensures |r| == if |s| >= 2 then |s| else 2
    ensures r[|r| - |s|..] == s
    ensures forall i :: 0 <= i < |r| - |s| ==> r[i] == '0'
  {
    if |s| >= 2 then s else if |s| == 1 then "0" + s else "00"
  }

  lemma PadStart2Digits(s: string)
    requires AllDigits(s)
    ensures AllDigits(PadStart2(s))
  {
    var r := PadStart2(s);
    forall i | 0 <= i < |r| ensures IsDigit(r[i]) {
      if i >= |r| - |s| { assert r[i] == r[|r| - |s|..][i - (|r| - |s|)]; }
    }
  }

  /** Decimal digits and the minus sign need no surrogate pairs. */
  lemma DigitsInBmp(s: string)
    requires AllDigits(s) || (|s| > 0 && s[0] == '-' && AllDigits(s[1..]))
    ensures InBmp(s)
  {
    forall i | 0 <= i < |s| ensures s[i] as int <= 0xFFFF {
      if !AllDigits(s) && i > 0 { assert s[i] == s[1..][i - 1]; }
    }
  }

  /** Leading zeros do not change the parsed value. */
  lemma {:induction false} LeadingZeroValue(s: string)
    requires AllDigits(s)
    ensures AllDigits("0" + s) && DigitsValue("0" + s) == DigitsValue(s)
    decreases |s|
  {
    if s != [] {
      var t := "0" + s;
      assert t[..|t| - 1] == "0" + s[..|s| - 1];
      LeadingZeroValue(s[..|s| - 1]);
    }
  }

  /** A two-digit field: `n.toString().padStart(2, "0")` for `n < 100` is two
      digits that read back as `n`. */
  lemma PadStart2Value(n: nat)
    requires n < 100
    ensures |PadStart2(NatToString(n))| == 2 && AllDigits(PadStart2(NatToString(n)))
    ensures DigitsValue(PadStart2(NatToString(n))) == n
  {
    var s := NatToString(n);
    NatToStringRoundTrip(n);
    if n >= 10 {
      assert n / 10 < 10;
    } else {
      LeadingZeroValue(s);
    }
  }
}
