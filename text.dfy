/** The string primitives the app leans on: `String.prototype.trim`,
    ASCII case for the fixed segment labels, decimal digits, `String(n)`,
    `padStart(2, "0")` and `parseInt(s, 10)` on an all-digit string. */
module Text {

  /** ECMAScript WhiteSpace and LineTerminator code points: exactly what
      `trim` strips. */
  predicate IsWhitespace(c: char) {
    || c == '\t' || c == '\n' || c == '\U{000B}' || c == '\U{000C}' || c == '\r'
    || c == ' ' || c == '\U{00A0}' || c == '\U{1680}'
    || ('\U{2000}' <= c <= '\U{200A}')
    || c == '\U{2028}' || c == '\U{2029}' || c == '\U{202F}' || c == '\U{205F}'
    || c == '\U{3000}' || c == '\U{FEFF}'
  }

  /** Empty or whitespace only: the strings `trim` turns into "". */
  predicate IsBlank(s: string) {
    forall i :: 0 <= i < |s| ==> IsWhitespace(s[i])
  }

  /** No whitespace at either end. */
  predicate IsTrimmed(s: string) {
    s == [] || (!IsWhitespace(s[0]) && !IsWhitespace(s[|s| - 1]))
  }

  /** Drops leading whitespace. */
  function TrimStart(s: string): string {
    if |s| > 0 && IsWhitespace(s[0]) then TrimStart(s[1..]) else s
  }

  /** Drops trailing whitespace. */
  function TrimEnd(s: string): string {
    if |s| > 0 && IsWhitespace(s[|s| - 1]) then TrimEnd(s[..|s| - 1]) else s
  }

  /** `s.trim()`. Its properties are stated by the lemmas below rather than
      as postconditions, so that every string built with it (every item
      title) does not drag them into unrelated proofs. */
  function Trim(s: string): string {
    TrimEnd(TrimStart(s))
  }

  /** `TrimStart` keeps the suffix that starts at the first non-whitespace
      character, and drops only whitespace. */
  lemma {:induction false} TrimStartSuffix(s: string)
    ensures |TrimStart(s)| <= |s| && TrimStart(s) == s[|s| - |TrimStart(s)|..]
    ensures forall i :: 0 <= i < |s| - |TrimStart(s)| ==> IsWhitespace(s[i])
    ensures TrimStart(s) == [] || !IsWhitespace(TrimStart(s)[0])
  {
    if |s| > 0 && IsWhitespace(s[0]) {
      TrimStartSuffix(s[1..]);
    }
  }

  /** `TrimEnd` keeps the prefix that ends at the last non-whitespace
      character, and drops only whitespace. */
  lemma {:induction false} TrimEndPrefix(s: string)
    ensures |TrimEnd(s)| <= |s| && TrimEnd(s) == s[..|TrimEnd(s)|]
    ensures forall i :: |TrimEnd(s)| <= i < |s| ==> IsWhitespace(s[i])
    ensures TrimEnd(s) == [] || !IsWhitespace(TrimEnd(s)[|TrimEnd(s)| - 1])
  {
    if |s| > 0 && IsWhitespace(s[|s| - 1]) {
      TrimEndPrefix(s[..|s| - 1]);
    }
  }

  /** The trimmed string has no whitespace at either end, and it is empty
      exactly when the input was blank. */
  lemma TrimTrims(s: string)
    ensures IsTrimmed(Trim(s))
    ensures Trim(s) == [] <==> IsBlank(s)
  {
    var t := TrimStart(s);
    var r := TrimEnd(t);
    TrimStartSuffix(s);
    TrimEndPrefix(t);
    assert r != [] ==> r[0] == t[0];
    assert IsBlank(s) ==> t == [];
    assert r == [] ==> t == [];
  }

  /** How many whitespace characters `trim` drops at the front. */
  function LeadingWhitespace(s: string): (n: nat)
    ensures n <= |s|
  {
    TrimStartSuffix(s);
    |s| - |TrimStart(s)|
  }

  /** `trim` removes only whitespace, and only at the ends: the result is the
      slice of the input after its leading whitespace, and what follows that
      slice is whitespace too. */
  lemma TrimIsInfix(s: string)
    ensures LeadingWhitespace(s) + |Trim(s)| <= |s|
    ensures Trim(s) == s[LeadingWhitespace(s)..LeadingWhitespace(s) + |Trim(s)|]
    ensures forall i :: 0 <= i < LeadingWhitespace(s) ==> IsWhitespace(s[i])
    ensures forall i :: LeadingWhitespace(s) + |Trim(s)| <= i < |s| ==> IsWhitespace(s[i])
  {
    TrimStartSuffix(s);
    TrimSlice(s);
    TrimTail(s);
  }

  lemma TrimSlice(s: string)
    ensures LeadingWhitespace(s) + |Trim(s)| <= |s|
    ensures Trim(s) == s[LeadingWhitespace(s)..LeadingWhitespace(s) + |Trim(s)|]
  {
    var t := TrimStart(s);
    TrimStartSuffix(s);
    TrimEndPrefix(t);
    var a := |s| - |t|;
    var r := TrimEnd(t);
    assert Trim(s) == r && LeadingWhitespace(s) == a;
    assert t == s[a..] && r == t[..|r|];
  }

  lemma TrimTail(s: string)
    ensures forall i :: LeadingWhitespace(s) + |Trim(s)| <= i < |s| ==> IsWhitespace(s[i])
  {
    var t := TrimStart(s);
    TrimStartSuffix(s);
    TrimEndPrefix(t);
    var a := |s| - |t|;
    var r := TrimEnd(t);
    assert Trim(s) == r && LeadingWhitespace(s) == a;
    forall i | a + |r| <= i < |s| ensures IsWhitespace(s[i]) {
      assert |r| <= i - a < |t| && s[i] == t[i - a];
    }
  }

  /** A trimmed string is its own trim. */
  lemma TrimOfTrimmed(s: string)
    requires IsTrimmed(s)
    ensures Trim(s) == s
  {
  }

  /** Trimming twice is trimming once. */
  lemma TrimIdempotent(s: string)
    ensures Trim(Trim(s)) == Trim(s)
  {
    TrimTrims(s);
    TrimOfTrimmed(Trim(s));
  }

  // ----- ASCII case, enough for the fixed "System"/"Light"/"Dark" labels -----

  function AsciiUpper(c: char): char {
    if 'a' <= c <= 'z' then (c as int - 32) as char else c
  }

  function AsciiLower(c: char): char {
    if 'A' <= c <= 'Z' then (c as int + 32) as char else c
  }

  /** `s.toLowerCase()` over ASCII letters. */
  function ToLower(s: string): (r: string)
    ensures |r| == |s|
    ensures forall i :: 0 <= i < |s| ==> r[i] == AsciiLower(s[i])
  {
    if s == [] then [] else [AsciiLower(s[0])] + ToLower(s[1..])
  }

  predicate IsLowerWord(s: string) {
    forall i :: 0 <= i < |s| ==> 'a' <= s[i] <= 'z'
  }

  /** `s[0].toUpperCase() + s.slice(1)`; the source only applies it to
      non-empty names (on "" it would throw). */
  function Capitalize(s: string): (r: string)
    requires |s| > 0
  {
    [AsciiUpper(s[0])] + s[1..]
  }

  /** Lower-casing undoes capitalising a lower-case word. */
  lemma CapitalizeThenLower(s: string)
    requires |s| > 0 && IsLowerWord(s)
    ensures ToLower(Capitalize(s)) == s
    ensures 'A' <= Capitalize(s)[0] <= 'Z'
  {
    var c := Capitalize(s);
    forall i | 0 <= i < |s| ensures ToLower(c)[i] == s[i] {
      if i == 0 {
        assert AsciiLower(AsciiUpper(s[0])) == s[0];
      } else {
        assert c[i] == s[i];
      }
    }
  }

  // ----- decimal digits -----

  predicate IsDigit(c: char) {
    '0' <= c <= '9'
  }

  predicate AllDigits(s: string) {
    forall i :: 0 <= i < |s| ==> IsDigit(s[i])
  }

  function DigitValue(c: char): (d: nat)
    requires IsDigit(c)
    ensures d < 10
  {
    c as int - '0' as int
  }

  function DigitChar(d: nat): (c: char)
    requires d < 10
    ensures IsDigit(c) && DigitValue(c) == d
  {
    ('0' as int + d) as char
  }

  /** `s.replace(/[^0-9]/g, "")`: the ASCII digits of `s`, in order. */
  function Digits(s: string): (r: string)
    ensures AllDigits(r) && |r| <= |s|
  {
    if s == [] then []
    else (if IsDigit(s[0]) then [s[0]] else []) + Digits(s[1..])
  }

  lemma {:induction false} DigitsAppend(a: string, b: string)
    ensures Digits(a + b) == Digits(a) + Digits(b)
  {
    if a == [] {
      assert a + b == b;
    } else {
      var head := if IsDigit(a[0]) then [a[0]] else [];
      assert (a + b)[0] == a[0] && (a + b)[1..] == a[1..] + b;
      DigitsAppend(a[1..], b);
      assert Digits(a + b) == head + Digits(a[1..] + b);
      assert Digits(a) == head + Digits(a[1..]);
    }
  }

  /** A string of digits is its own digit string. */
  lemma {:induction false} DigitsOfDigits(s: string)
    requires AllDigits(s)
    ensures Digits(s) == s
  {
    if s != [] {
      DigitsOfDigits(s[1..]);
    }
  }

  function Pow10(k: nat): (p: nat)
    ensures p >= 1
  {
    if k == 0 then 1 else 10 * Pow10(k - 1)
  }

  /** `parseInt(s, 10)` on a non-empty all-digit string (leading zeros
      allowed). */
  function DecimalValue(s: string): (n: nat)
    requires AllDigits(s)
    ensures n < Pow10(|s|)
  {
    if s == [] then 0 else 10 * DecimalValue(s[..|s| - 1]) + DigitValue(s[|s| - 1])
  }

  /** `String(n)` for a non-negative integer: no leading zeros. */
  function NatToString(n: nat): (r: string)
    ensures |r| >= 1 && AllDigits(r)
    ensures r[0] != '0' || n == 0
  {
    if n < 10 then [DigitChar(n)] else NatToString(n / 10) + [DigitChar(n % 10)]
  }

  /** Reading back what `String(n)` wrote gives `n`. */
  lemma {:induction false} DecimalRoundTrip(n: nat)
    ensures DecimalValue(NatToString(n)) == n
  {
    if n >= 10 {
      var r := NatToString(n);
      assert r[..|r| - 1] == NatToString(n / 10);
      DecimalRoundTrip(n / 10);
    }
  }

  /** `String(n)` is one-to-one. */
  lemma NatToStringInjective(m: nat, n: nat)
    requires NatToString(m) == NatToString(n)
    ensures m == n
  {
    DecimalRoundTrip(m);
    DecimalRoundTrip(n);
  }

  /** `String(y)` for any integer: a minus sign before the digits of a
      negative number. */
  function IntToString(y: int): (r: string)
    ensures |r| >= 1
  {
    if y < 0 then "-" + NatToString(-y) else NatToString(y)
  }

  lemma IntToStringInjective(x: int, y: int)
    requires IntToString(x) == IntToString(y)
    ensures x == y
  {
    var rx, ry := IntToString(x), IntToString(y);
    if x < 0 && y < 0 {
      assert rx[1..] == NatToString(-x) && ry[1..] == NatToString(-y);
      NatToStringInjective(-x, -y);
    } else if x >= 0 && y >= 0 {
      NatToStringInjective(x, y);
    }
  }

  /** `s.padStart(2, "0")`. */
  function PadStart2(s: string): string {
    if |s| >= 2 then s else seq(2 - |s|, _ => '0') + s
  }

  /** The two decimal digits of a number below 100. */
  function TwoDigits(n: nat): (r: string)
    requires n < 100
  {
    [DigitChar(n / 10), DigitChar(n % 10)]
  }

  /** `String(n).padStart(2, "0")` for `n < 100` is exactly two digits that
      read back as `n`. */
  lemma Pad2OfSmall(n: nat)
    requires n < 100
    ensures PadStart2(NatToString(n)) == TwoDigits(n)
    ensures |TwoDigits(n)| == 2 && AllDigits(TwoDigits(n))
    ensures DecimalValue(TwoDigits(n)) == n
  {
    var t := TwoDigits(n);
    assert t[..1] == [DigitChar(n / 10)];
    if n >= 10 {
      assert NatToString(n / 10) == [DigitChar(n / 10)];
    }
  }

  /** Two digits are the padded text of their own value. */
  lemma TwoDigitsOfValue(s: string)
    requires |s| == 2 && AllDigits(s)
    ensures DecimalValue(s) < 100 && TwoDigits(DecimalValue(s)) == s
  {
    assert s[..1][..0] == [] && s[..1][0] == s[0];
    assert DecimalValue(s[..1]) == DigitValue(s[0]);
    var v := DecimalValue(s);
    assert v == 10 * DigitValue(s[0]) + DigitValue(s[1]);
  }
}
