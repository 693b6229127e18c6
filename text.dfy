/** The string operations the form and the list rely on: `trim`, `parseFloat`,
    string comparison with `<=`, ASCII case mapping, and 'yyyy-MM-dd' date strings. */
module Text {
  import opened Dates
  import opened Wrappers

  /** The white space `trim` and `parseFloat` skip: the ECMAScript WhiteSpace characters
      (tab, vertical tab, form feed, the byte-order mark and every space separator of
      Unicode category Zs) and LineTerminator characters (line feed, carriage return,
      line and paragraph separators). */
  predicate IsSpace(c: char) {
    c == '\t' || c == '\U{000B}' || c == '\U{000C}' || c == '\U{FEFF}'
    || c == ' ' || c == '\U{00A0}' || c == '\U{1680}' || '\U{2000}' <= c <= '\U{200A}'
    || c == '\U{202F}' || c == '\U{205F}' || c == '\U{3000}'
    || c == '\n' || c == '\r' || c == '\U{2028}' || c == '\U{2029}'
  }

  predicate IsBlank(s: string) {
    forall i | 0 <= i < |s| :: IsSpace(s[i])
  }

  /** The number of white-space characters `s` starts with. */
  function LeadingSpaces(s: string): (n: nat)
    ensures n <= |s|
    ensures forall i | 0 <= i < n :: IsSpace(s[i])
    ensures n == |s| || !IsSpace(s[n])
  {
    if |s| > 0 && IsSpace(s[0]) then
      var k := LeadingSpaces(s[1..]);
      assert forall i | 1 <= i < k + 1 :: s[i] == s[1..][i - 1];
      k + 1
    else 0
  }

  function TrimStart(s: string): (r: string)
    ensures |r| <= |s| && r == s[|s| - |r|..]
    ensures IsBlank(s[..|s| - |r|])
    ensures |r| == 0 || !IsSpace(r[0])
  {
    var n := LeadingSpaces(s);
    assert forall i | 0 <= i < n :: s[..n][i] == s[i];
    s[n..]
  }

  function TrimEnd(s: string): (r: string)
    ensures |r| <= |s| && r == s[..|r|]
    ensures IsBlank(s[|r|..])
    ensures |r| == 0 || !IsSpace(r[|r| - 1])
  {
    if |s| > 0 && IsSpace(s[|s| - 1]) then TrimEnd(s[..|s| - 1]) else s
  }

  /** `String.prototype.trim`. */
  function Trim(s: string): string {
    TrimEnd(TrimStart(s))
  }

  /** A string trims to the empty string exactly when it is all white space. */
  lemma TrimEmptyIffBlank(s: string)
    ensures Trim(s) == "" <==> IsBlank(s)
  {
    var t := TrimStart(s);
    assert |t| > 0 ==> t[0] == s[|s| - |t|];
    assert t[0..] == t;
    assert s[..|s|] == s;
  }

  // ---------------------------------------------------------------------------
  // parseFloat

  predicate IsDigit(c: char) { '0' <= c <= '9' }

  function DigitValue(c: char): nat
    requires IsDigit(c)
  {
    (c as int - '0' as int) as nat
  }

  function DigitChar(n: nat): (c: char)
    requires n < 10
    ensures IsDigit(c) && DigitValue(c) == n
  {
    ('0' as int + n) as char
  }

  predicate AllDigits(s: string) {
    forall i | 0 <= i < |s| :: IsDigit(s[i])
  }

  /** The number of leading digits. */
  function DigitPrefix(s: string): (n: nat)
    ensures n <= |s| && AllDigits(s[..n]) && (n == |s| || !IsDigit(s[n]))
  {
    if |s| > 0 && IsDigit(s[0]) then
      var k := DigitPrefix(s[1..]);
      assert s[..k + 1] == [s[0]] + s[1..][..k];
      k + 1
    else 0
  }

  /** The value of a string of decimal digits. */
  function DigitsValue(s: string): nat
    requires AllDigits(s)
  {
    if |s| == 0 then 0 else 10 * DigitsValue(s[..|s| - 1]) + DigitValue(s[|s| - 1])
  }

  function Pow10(n: nat): (p: nat)
    ensures p >= 1
  {
    if n == 0 then 1 else 10 * Pow10(n - 1)
  }

  /** The number at the start of `body` (after the sign): digits, then an optional
      '.' and more digits; `None` when there are no digits at all. */
  function ParseMagnitude(body: string): Option<real>
  {
    var n := DigitPrefix(body);
    var frac := if n < |body| && body[n] == '.' then body[n + 1..] else "";
    var m := DigitPrefix(frac);
    if n == 0 && m == 0 then None
    else Some(DigitsValue(body[..n]) as real + Fraction(frac[..m]))
  }

  /** The value of the digits after the decimal point: `0.d1d2...`. */
  function Fraction(digits: string): (r: real)
    requires AllDigits(digits)
    ensures 0.0 <= r < 1.0
  {
    if |digits| == 0 then 0.0
    else (DigitValue(digits[0]) as real + Fraction(digits[1..])) / 10.0
  }

  function Negate(r: Option<real>): Option<real> {
    match r
    case None => None
    case Some(x) => Some(-x)
  }

  /** `parseFloat`, for decimal notation: leading white space, an optional sign, digits,
      an optional fraction; the rest of the string is ignored. `None` is NaN (no digits). */
  function ParseFloat(s: string): Option<real>
  {
    ParseSigned(TrimStart(s))
  }

  /** The number at the start of `t`, after an optional sign. */
  function ParseSigned(t: string): Option<real>
  {
    if |t| > 0 && t[0] == '-' then Negate(ParseMagnitude(t[1..]))
    else if |t| > 0 && t[0] == '+' then ParseMagnitude(t[1..])
    else ParseMagnitude(t)
  }

  /** The decimal digits of `n`, without leading zeros. */
  function NatToString(n: nat): (s: string)
    ensures |s| > 0 && AllDigits(s)
    decreases n
  {
    if n < 10 then [DigitChar(n)] else NatToString(n / 10) + [DigitChar(n % 10)]
  }

  lemma {:induction false} NatToStringValue(n: nat)
    ensures DigitsValue(NatToString(n)) == n
    decreases n
  {
    if n >= 10 {
      NatToStringValue(n / 10);
      var s := NatToString(n);
      assert s[..|s| - 1] == NatToString(n / 10);
    }
  }

  /** A non-empty run of digits reads as its decimal value. */
  lemma MagnitudeOfDigits(s: string)
    requires |s| > 0 && AllDigits(s)
    ensures ParseMagnitude(s) == Some(DigitsValue(s) as real)
  {
    DigitPrefixAll(s);
    assert s[..|s|] == s;
    assert DigitPrefix("") == 0 && Fraction("") == 0.0;
  }

  lemma {:induction false} DigitPrefixAll(s: string)
    requires AllDigits(s)
    ensures DigitPrefix(s) == |s|
    decreases |s|
  {
    if |s| > 0 {
      assert AllDigits(s[1..]) by {
        forall i | 0 <= i < |s| - 1 ensures IsDigit(s[1..][i]) {
          assert s[1..][i] == s[i + 1];
        }
      }
      DigitPrefixAll(s[1..]);
    }
  }

  /** Nothing is trimmed from a string that starts with a non-space. */
  lemma TrimStartKeeps(s: string)
    requires |s| > 0 && !IsSpace(s[0])
    ensures TrimStart(s) == s
  {
  }

  /** A run of digits, as a whole string, reads as its decimal value. */
  lemma ParseFloatDigits(s: string)
    requires |s| > 0 && AllDigits(s)
    ensures ParseFloat(s) == Some(DigitsValue(s) as real)
  {
    assert IsDigit(s[0]);
    TrimStartKeeps(s);
    MagnitudeOfDigits(s);
  }

  /** The same run after a minus sign reads as the negated value. */
  lemma ParseFloatNegatedDigits(s: string)
    requires |s| > 0 && AllDigits(s)
    ensures ParseFloat("-" + s) == Some(-(DigitsValue(s) as real))
  {
    var neg := "-" + s;
    assert neg[0] == '-' && neg[1..] == s;
    TrimStartKeeps(neg);
    MagnitudeOfDigits(s);
    calc {
      ParseFloat(neg);
      ParseSigned(TrimStart(neg));
      ParseSigned(neg);
      Negate(ParseMagnitude(s));
      Negate(Some(DigitsValue(s) as real));
    }
  }

  /** `parseFloat` reads back a whole number written in decimal. */
  lemma ParseFloatNat(n: nat)
    ensures ParseFloat(NatToString(n)) == Some(n as real)
  {
    var s := NatToString(n);
    NatToStringValue(n);
    ParseFloatDigits(s);
  }

  /** Without any digit there is no number. */
  lemma MagnitudeNoDigits(body: string)
    requires forall i | 0 <= i < |body| :: !IsDigit(body[i])
    ensures ParseMagnitude(body) == None
  {
    var n := DigitPrefix(body);
    if n < |body| && body[n] == '.' {
      var frac := body[n + 1..];
      assert |frac| > 0 ==> frac[0] == body[n + 1];
    }
  }

  /** A string without any digit is NaN. */
  lemma ParseFloatNoDigits(s: string)
    requires forall i | 0 <= i < |s| :: !IsDigit(s[i])
    ensures ParseFloat(s) == None
  {
    var t := TrimStart(s);
    assert forall i | 0 <= i < |t| :: t[i] == s[|s| - |t| + i];
    if |t| > 0 {
      assert forall i | 0 <= i < |t| - 1 :: t[1..][i] == t[i + 1];
      MagnitudeNoDigits(t[1..]);
    }
    MagnitudeNoDigits(t);
  }

  // ---------------------------------------------------------------------------
  // String comparison

  /** `a <= b` on strings: lexicographic by character code, a prefix first. */
  predicate StringLe(a: string, b: string) {
    if |a| == 0 then true
    else if |b| == 0 then false
    else if a[0] != b[0] then a[0] < b[0]
    else StringLe(a[1..], b[1..])
  }

  /** Comparing two strings that start with prefixes of the same length: the prefixes
      decide unless they are equal. */
  lemma {:induction false} StringLeConcat(x: string, u: string, y: string, v: string)
    requires |x| == |y|
    ensures StringLe(x + u, y + v) <==> (x != y && StringLe(x, y)) || (x == y && StringLe(u, v))
    decreases |x|
  {
    if |x| > 0 {
      assert (x + u)[0] == x[0] && (y + v)[0] == y[0];
      assert (x + u)[1..] == x[1..] + u && (y + v)[1..] == y[1..] + v;
      StringLeConcat(x[1..], u, y[1..], v);
      if x[0] == y[0] {
        assert x != y <==> x[1..] != y[1..] by {
          if x[1..] == y[1..] {
            assert x == [x[0]] + x[1..] && y == [y[0]] + y[1..];
          }
        }
      }
    } else {
      assert x == y;
      assert x + u == u && y + v == v;
    }
  }

  /** `n` written with exactly `k` digits, zero-padded. */
  function Padded(n: nat, k: nat): (s: string)
    ensures |s| == k && AllDigits(s)
  {
    if k == 0 then "" else Padded(n / 10, k - 1) + [DigitChar(n % 10)]
  }

  /** Zero-padded numbers of the same width compare as strings exactly as they compare as numbers. */
  lemma {:induction false} PaddedOrder(a: nat, b: nat, k: nat)
    requires a < Pow10(k) && b < Pow10(k)
    ensures StringLe(Padded(a, k), Padded(b, k)) <==> a <= b
    ensures Padded(a, k) == Padded(b, k) <==> a == b
  {
    if k > 0 {
      PaddedOrder(a / 10, b / 10, k - 1);
      var da, db := [DigitChar(a % 10)], [DigitChar(b % 10)];
      StringLeConcat(Padded(a / 10, k - 1), da, Padded(b / 10, k - 1), db);
      assert StringLe(da, db) <==> a % 10 <= b % 10;
      if Padded(a, k) == Padded(b, k) {
        assert Padded(a / 10, k - 1) == Padded(a, k)[..k - 1];
        assert Padded(b / 10, k - 1) == Padded(b, k)[..k - 1];
        assert DigitValue(Padded(a, k)[k - 1]) == a % 10;
      }
    }
  }

  /** The 'yyyy-MM-dd' string of a date (`format(date, 'yyyy-MM-dd')`, `toISOString().split('T')[0]`). */
  function IsoDate(d: Day): string {
    Padded(d.year, 4) + "-" + Padded(d.month, 2) + "-" + Padded(d.day, 2)
  }

  /** A padded field followed by '-' compares like the number in it. */
  lemma PaddedFieldOrder(a: nat, b: nat, k: nat)
    requires a < Pow10(k) && b < Pow10(k)
    ensures StringLe(Padded(a, k) + "-", Padded(b, k) + "-") <==> a <= b
    ensures Padded(a, k) + "-" == Padded(b, k) + "-" <==> a == b
  {
    PaddedOrder(a, b, k);
    StringLeConcat(Padded(a, k), "-", Padded(b, k), "-");
    assert StringLe("-", "-");
    if Padded(a, k) + "-" == Padded(b, k) + "-" {
      assert Padded(a, k) == (Padded(a, k) + "-")[..k];
      assert Padded(b, k) == (Padded(b, k) + "-")[..k];
    }
  }

  /** For four-digit years, comparing 'yyyy-MM-dd' strings with `<=` is comparing the dates. */
  lemma IsoDateOrder(a: Day, b: Day)
    requires a.year < 10000 && b.year < 10000
    ensures StringLe(IsoDate(a), IsoDate(b)) <==> DayNumber(a) <= DayNumber(b)
  {
    assert Pow10(4) == 10000 && Pow10(2) == 100;
    var ya, yb := Padded(a.year, 4) + "-", Padded(b.year, 4) + "-";
    var ma, mb := Padded(a.month, 2) + "-", Padded(b.month, 2) + "-";
    var da, db := Padded(a.day, 2), Padded(b.day, 2);
    assert IsoDate(a) == ya + (ma + da) && IsoDate(b) == yb + (mb + db);
    PaddedFieldOrder(a.year, b.year, 4);
    PaddedFieldOrder(a.month, b.month, 2);
    PaddedOrder(a.day, b.day, 2);
    StringLeConcat(ya, ma + da, yb, mb + db);
    StringLeConcat(ma, da, mb, db);
    DayNumberOrder(a, b);
  }

  // ---------------------------------------------------------------------------
  // Case mapping

  function LowerChar(c: char): char {
    if 'A' <= c <= 'Z' then (c as int + 32) as char else c
  }

  function UpperChar(c: char): char {
    if 'a' <= c <= 'z' then (c as int - 32) as char else c
  }

  /** `toLowerCase`, for ASCII letters. */
  function ToLower(s: string): (r: string)
    ensures |r| == |s| && forall i | 0 <= i < |s| :: r[i] == LowerChar(s[i])
  {
    seq(|s|, i requires 0 <= i < |s| => LowerChar(s[i]))
  }

  /** Lower-casing twice is lower-casing once. */
  lemma ToLowerIdempotent(s: string)
    ensures ToLower(ToLower(s)) == ToLower(s)
  {
  }
}
